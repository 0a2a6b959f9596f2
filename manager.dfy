/**
 * The `AutoSaveManager` class: the save coordinator, the restore
 * orchestrator, the save tick and the settings commit, over the store of
 * module Storage. The injected callbacks are represented by whether each is
 * attached as a function; every call to one, and every restore prompt shown,
 * is appended to a ghost log.
 */
module AutoSave {
  import opened Wrappers
  import opened Storage

  /** An externally visible action the manager triggers. */
  datatype Effect = SaveGame(silent: bool) | LoadGame | RenderAll | RestorePrompt

  /** The log `log` extended with `e` when `happened`, else left as it is. */
  function Logged(log: seq<Effect>, e: Effect, happened: bool): seq<Effect> {
    if happened then log + [e] else log
  }

  /** How the settings dialog is closed. */
  datatype SettingsChoice =
    | Cancel
      // `selected` is None when no radio button is checked
    | Confirm(selected: Option<string>, resetChecked: bool)

  class AutoSaveManager {
    var store: Store
    /** Whether a (truthy) game reference is attached. */
    var game: bool
    /** Whether each callback is attached and is a function. */
    var saveGame: bool
    var loadGame: bool
    var renderAll: bool
    var hasShownPrompt: bool
    /** The calls made to the injected callbacks and the prompts shown, in order. */
    ghost var effects: seq<Effect>

    /** The prompt flag records exactly whether the one restore prompt was shown. */
    ghost predicate Valid()
      reads this
    {
      multiset(effects)[RestorePrompt] == if hasShownPrompt then 1 else 0
    }

    /** A manager over the existing `localStorage` contents, nothing attached yet. */
    constructor (existing: Store)
      ensures Valid()
      ensures store == existing && effects == []
      ensures !game && !saveGame && !loadGame && !renderAll && !hasShownPrompt
    {
      store := existing;
      game, saveGame, loadGame, renderAll := false, false, false, false;
      hasShownPrompt := false;
      effects := [];
    }

    method SetSaveCallback(isFunction: bool)
      requires Valid()
      modifies this`saveGame
      ensures Valid() && saveGame == isFunction
    {
      saveGame := isFunction;
    }

    method SetLoadCallback(isFunction: bool)
      requires Valid()
      modifies this`loadGame
      ensures Valid() && loadGame == isFunction
    {
      loadGame := isFunction;
    }

    method SetRenderCallback(isFunction: bool)
      requires Valid()
      modifies this`renderAll
      ensures Valid() && renderAll == isFunction
    {
      renderAll := isFunction;
    }

    method SetGameReference(present: bool)
      requires Valid()
      modifies this`game
      ensures Valid() && game == present
    {
      game := present;
    }

    /** `setPreference`: succeeds, and writes, exactly for the three preferences. */
    method SetPreference(preference: string) returns (ok: bool)
      requires Valid()
      modifies this`store
      ensures Valid()
      ensures ok == IsPreference(preference)
      ensures store == AfterSetPreference(old(store), preference)
    {
      if IsPreference(preference) {
        store := store[AUTOSAVE_PREFERENCE_KEY := preference];
        return true;
      }
      return false;
    }

    /** `autoSave`: without a game reference nothing is written. */
    method AutoSave(now: int) returns (ok: bool)
      requires Valid()
      modifies this`store
      ensures Valid()
      ensures ok == game
      ensures store == if game then AfterAutoSave(old(store), now) else old(store)
    {
      if !game {
        return false;
      }
      store := AfterAutoSave(store, now);
      return true;
    }

    /**
     * `restoreAutoSave`: calls `loadGame` once, and returns what it returns,
     * exactly when a save exists and a load callback is attached.
     */
    method RestoreAutoSave(loadResult: bool) returns (ok: bool)
      requires Valid()
      modifies this`effects
      ensures Valid()
      ensures effects == Logged(old(effects), LoadGame, HasAutoSave(store) && loadGame)
      ensures ok == (HasAutoSave(store) && loadGame && loadResult)
    {
      if !HasAutoSave(store) {
        return false;
      }
      if loadGame {
        effects := effects + [LoadGame];
        return loadResult;
      }
      return false;
    }

    /** `clearAutoSave`: always succeeds. */
    method ClearAutoSave() returns (ok: bool)
      requires Valid()
      modifies this`store
      ensures Valid()
      ensures ok
      ensures store == AfterClearAutoSave(old(store))
    {
      store := store - {SAVE_KEY, AUTOSAVE_TIMESTAMP_KEY};
      return true;
    }

    /**
     * The body shared by the `beforeunload` handler and the 30-second
     * interval: unless restoring is disabled or no game is attached, a silent
     * save through the game's callback followed by `autoSave`.
     */
    method SaveTick(now: int)
      requires Valid()
      modifies this`store, this`effects
      ensures Valid()
      ensures var active := GetPreference(old(store)) != NO_RESTORE && game;
        && store == (if active then AfterAutoSave(old(store), now) else old(store))
        && effects == Logged(old(effects), SaveGame(true), active && saveGame)
    {
      var pref := GetPreference(store);
      if pref != NO_RESTORE && game {
        if saveGame {
          effects := effects + [SaveGame(true)];
        }
        var _ := AutoSave(now);
      }
    }

    /** Whether `handleRestore` gets as far as calling `loadGame`. */
    static predicate Attempted(s: Store, canLoad: bool) {
      GetPreference(s) != NO_RESTORE && HasAutoSave(s) && canLoad
    }

    /** Whether a successful restore over `s` shows the prompt. */
    static predicate Prompts(s: Store, shown: bool) {
      GetPreference(s) == ASK_RESTORE && !shown
    }

    /**
     * `handleRestore`, with the result of `loadGame` and the answer to the
     * restore prompt given up front. The restore is skipped when restoring is
     * disabled, when there is no save, or when loading fails; otherwise the
     * board is rendered and, in ask mode, the prompt is shown the first time.
     */
    method HandleRestore(loadResult: bool, disable: bool) returns (restored: bool)
      requires Valid()
      modifies this`store, this`effects, this`hasShownPrompt
      ensures Valid()
      ensures restored == (Attempted(old(store), loadGame) && loadResult)
      ensures effects == Logged(Logged(Logged(old(effects),
                                LoadGame, Attempted(old(store), loadGame)),
                                RenderAll, restored && renderAll),
                                RestorePrompt, restored && Prompts(old(store), old(hasShownPrompt)))
      ensures hasShownPrompt == (old(hasShownPrompt) || (restored && Prompts(old(store), old(hasShownPrompt))))
      ensures restored && Prompts(old(store), old(hasShownPrompt)) && disable
        ==> store == AfterSetPreference(old(store), NO_RESTORE)
      ensures !(restored && Prompts(old(store), old(hasShownPrompt)) && disable) ==> store == old(store)
      // a prompt, once shown, is never shown again
      ensures old(hasShownPrompt) ==> multiset(effects)[RestorePrompt] == 1 && store == old(store)
      // answering "disable" turns restoring off for every later read
      ensures restored && GetPreference(old(store)) == ASK_RESTORE && !old(hasShownPrompt) && disable
        ==> GetPreference(store) == NO_RESTORE
    {
      var pref := GetPreference(store);
      if pref == NO_RESTORE {
        return false;
      }
      if !HasAutoSave(store) {
        return false;
      }
      var ok := RestoreAutoSave(loadResult);
      if !ok {
        return false;
      }
      if renderAll {
        effects := effects + [RenderAll];
      }
      OfferRestorePrompt(pref, disable);
      return true;
    }

    /**
     * The last step of a successful restore: in ask mode, the first time
     * only, show the prompt and, on a "disable" answer, write NO_RESTORE.
     */
    method OfferRestorePrompt(pref: string, disable: bool)
      requires Valid()
      modifies this`store, this`effects, this`hasShownPrompt
      ensures Valid()
      ensures var prompted := pref == ASK_RESTORE && !old(hasShownPrompt);
        && effects == Logged(old(effects), RestorePrompt, prompted)
        && hasShownPrompt == (old(hasShownPrompt) || prompted)
        && store == if prompted && disable then AfterSetPreference(old(store), NO_RESTORE) else old(store)
    {
      if pref == ASK_RESTORE && !hasShownPrompt {
        hasShownPrompt := true;
        effects := effects + [RestorePrompt];
        if disable {
          var _ := SetPreference(NO_RESTORE);
        }
      }
    }

    /**
     * `showSettingsDialog`: reports the values the dialog opens with, then
     * commits the user's choice. Confirming with no radio button checked
     * fails on reading its value before anything is written.
     */
    method ShowSettingsDialog(choice: SettingsChoice) returns (shownPreference: string, shownResetPrompt: bool)
      requires Valid()
      modifies this`store
      ensures Valid()
      ensures shownPreference == GetPreference(old(store))
      ensures shownResetPrompt == ResetPromptPreference(old(store))
      ensures store == match choice
        case Confirm(Some(selected), checked) => AfterSettingsCommit(old(store), selected, checked)
        case _ => old(store)
    {
      shownPreference := GetPreference(store);
      shownResetPrompt := ResetPromptPreference(store);
      match choice {
        case Cancel =>
        case Confirm(None, _) =>
        case Confirm(Some(selected), checked) =>
          var _ := SetPreference(selected);
          store := AfterResetPromptCommit(store, checked);
      }
    }
  }

  /**
   * Two page loads' worth of `handleRestore` in one process, in ask mode over
   * an existing save with a loader that succeeds: the prompt is shown once;
   * answering "disable" makes the second call skip the restore.
   */
  method RestoreTwiceInAskMode(existing: Store, disable: bool)
    returns (first: bool, second: bool, disabledAfter: bool, ghost prompts: nat)
    requires GetPreference(existing) == ASK_RESTORE && HasAutoSave(existing)
    ensures first
    ensures second == !disable
    ensures disabledAfter == disable
    ensures prompts == 1
  {
    var m := new AutoSaveManager(existing);
    m.SetLoadCallback(true);
    m.SetRenderCallback(true);
    first := m.HandleRestore(true, disable);
    assert m.hasShownPrompt;
    if disable {
      assert GetPreference(m.store) == NO_RESTORE;
    } else {
      assert m.store == existing;
    }
    second := m.HandleRestore(true, false);
    disabledAfter := GetPreference(m.store) == NO_RESTORE;
    prompts := multiset(m.effects)[RestorePrompt];
  }
}
