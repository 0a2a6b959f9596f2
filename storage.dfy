/**
 * The four `localStorage` entries the autosave manager owns, as a map from
 * key to string value: what each read returns and what each write leaves
 * behind.
 */
module Storage {
  import opened Wrappers
  import opened Decimal

  /** The browser's `localStorage`: string keys to string values. */
  type Store = map<string, string>

  /** The blob the game itself writes; shared with the game's own save. */
  const SAVE_KEY := "oi_coach_save"
  const AUTOSAVE_PREFERENCE_KEY := "oi_coach_autosave_preference"
  const AUTOSAVE_TIMESTAMP_KEY := "oi_coach_autosave_timestamp"
  /** The restart-confirmation flag written by the settings dialog. */
  const RESET_PROMPT_KEY := "oi_coach_reset_prompt"

  const AUTO_RESTORE := "auto_restore"
  const ASK_RESTORE := "ask_restore"
  const NO_RESTORE := "no_restore"

  /** Membership in the three restore preferences. */
  predicate IsPreference(p: string) {
    p == AUTO_RESTORE || p == ASK_RESTORE || p == NO_RESTORE
  }

  // ---------------------------------------------------------------------
  // Reads

  /**
   * The restore preference: the stored string when it is present and
   * non-empty, whatever it is, and ASK_RESTORE otherwise.
   */
  function GetPreference(s: Store): (p: string)
    ensures p != ""
    ensures AUTOSAVE_PREFERENCE_KEY in s && s[AUTOSAVE_PREFERENCE_KEY] != "" ==> p == s[AUTOSAVE_PREFERENCE_KEY]
    ensures AUTOSAVE_PREFERENCE_KEY !in s || s[AUTOSAVE_PREFERENCE_KEY] == "" ==> p == ASK_RESTORE
  {
    if AUTOSAVE_PREFERENCE_KEY in s && s[AUTOSAVE_PREFERENCE_KEY] != "" then s[AUTOSAVE_PREFERENCE_KEY]
    else ASK_RESTORE
  }

  /** A save exists when the blob is present and non-empty. */
  predicate HasAutoSave(s: Store) {
    SAVE_KEY in s && s[SAVE_KEY] != ""
  }

  /** What `getAutoSaveTimestamp` yields. */
  datatype Timestamp =
    | NoTimestamp              // null: the key is absent or empty
    | Millis(ms: int)          // an integer string, read as the exact integer
    | NotAnInteger(raw: string) // other text, which parseInt reads as a prefix or as NaN; not decoded here

  function GetAutoSaveTimestamp(s: Store): (t: Timestamp)
    ensures t.NoTimestamp? <==> AUTOSAVE_TIMESTAMP_KEY !in s || s[AUTOSAVE_TIMESTAMP_KEY] == ""
    ensures t.NotAnInteger? ==> AUTOSAVE_TIMESTAMP_KEY in s && t.raw == s[AUTOSAVE_TIMESTAMP_KEY]
    ensures AUTOSAVE_TIMESTAMP_KEY in s && s[AUTOSAVE_TIMESTAMP_KEY] != "" ==>
      match ParseInteger(s[AUTOSAVE_TIMESTAMP_KEY])
      case Some(n) => t == Millis(n)
      case None => t.NotAnInteger?
  {
    if AUTOSAVE_TIMESTAMP_KEY !in s || s[AUTOSAVE_TIMESTAMP_KEY] == "" then NoTimestamp
    else match ParseInteger(s[AUTOSAVE_TIMESTAMP_KEY])
      case Some(n) => Millis(n)
      case None => NotAnInteger(s[AUTOSAVE_TIMESTAMP_KEY])
  }

  /** The restart-confirmation flag: true when absent, else whether it reads "true". */
  predicate ResetPromptPreference(s: Store) {
    RESET_PROMPT_KEY !in s || s[RESET_PROMPT_KEY] == "true"
  }

  // ---------------------------------------------------------------------
  // Writes

  /**
   * The store after `setPreference(p)`: a recognised preference is written
   * and reads back; anything else is rejected without a write.
   */
  function AfterSetPreference(s: Store, p: string): (t: Store)
    ensures IsPreference(p) ==> AUTOSAVE_PREFERENCE_KEY in t && GetPreference(t) == p
    ensures !IsPreference(p) ==> t == s
    ensures t - {AUTOSAVE_PREFERENCE_KEY} == s - {AUTOSAVE_PREFERENCE_KEY}
  {
    if IsPreference(p) then s[AUTOSAVE_PREFERENCE_KEY := p] else s
  }

  /**
   * The store after a successful `autoSave()` at clock value `now`: only the
   * timestamp entry changes; the save blob and the preference are untouched.
   */
  function AfterAutoSave(s: Store, now: int): (t: Store)
    ensures AUTOSAVE_TIMESTAMP_KEY in t
    ensures t - {AUTOSAVE_TIMESTAMP_KEY} == s - {AUTOSAVE_TIMESTAMP_KEY}
    ensures HasAutoSave(t) == HasAutoSave(s)
    ensures GetPreference(t) == GetPreference(s)
  {
    s[AUTOSAVE_TIMESTAMP_KEY := IntToDecimal(now)]
  }

  /**
   * The store after `clearAutoSave()`: exactly the blob and the timestamp are
   * gone, every other entry keeps its value.
   */
  function AfterClearAutoSave(s: Store): (t: Store)
    ensures t.Keys == s.Keys - {SAVE_KEY, AUTOSAVE_TIMESTAMP_KEY}
    ensures forall k | k in t :: t[k] == s[k]
    ensures !HasAutoSave(t) && GetAutoSaveTimestamp(t) == NoTimestamp
    ensures GetPreference(t) == GetPreference(s)
  {
    s - {SAVE_KEY, AUTOSAVE_TIMESTAMP_KEY}
  }

  /** The store after the settings dialog writes the restart-confirmation flag. */
  function AfterResetPromptCommit(s: Store, checked: bool): (t: Store)
    ensures RESET_PROMPT_KEY in t && ResetPromptPreference(t) == checked
    ensures t[RESET_PROMPT_KEY] == if checked then "true" else "false"
    ensures t - {RESET_PROMPT_KEY} == s - {RESET_PROMPT_KEY}
  {
    s[RESET_PROMPT_KEY := if checked then "true" else "false"]
  }

  /**
   * The store after the settings dialog is confirmed: the preference write
   * (which may be rejected) followed by the flag write, which happens either way.
   */
  function AfterSettingsCommit(s: Store, selected: string, checked: bool): (t: Store)
    ensures RESET_PROMPT_KEY in t && t[RESET_PROMPT_KEY] == if checked then "true" else "false"
    ensures ResetPromptPreference(t) == checked
    ensures GetPreference(t) == if IsPreference(selected) then selected else GetPreference(s)
    ensures IsPreference(selected) ==> AUTOSAVE_PREFERENCE_KEY in t && t[AUTOSAVE_PREFERENCE_KEY] == selected
    ensures !IsPreference(selected) ==> t - {RESET_PROMPT_KEY} == s - {RESET_PROMPT_KEY}
    ensures t - {AUTOSAVE_PREFERENCE_KEY, RESET_PROMPT_KEY} == s - {AUTOSAVE_PREFERENCE_KEY, RESET_PROMPT_KEY}
  {
    AfterResetPromptCommit(AfterSetPreference(s, selected), checked)
  }

  // ---------------------------------------------------------------------
  // Properties relating several operations

  /** The timestamp `autoSave` writes reads back as the clock value it was given. */
  lemma {:induction false} AutoSaveTimestampRoundTrip(s: Store, now: int)
    ensures GetAutoSaveTimestamp(AfterAutoSave(s, now)) == Millis(now)
  {
    IntToDecimalRoundTrip(now);
  }

  /** Two saves in a row leave what the later one alone would: last write wins. */
  lemma AutoSaveLastWriteWins(s: Store, earlier: int, later: int)
    ensures AfterAutoSave(AfterAutoSave(s, earlier), later) == AfterAutoSave(s, later)
  {
  }

  lemma ClearAutoSaveIdempotent(s: Store)
    ensures AfterClearAutoSave(AfterClearAutoSave(s)) == AfterClearAutoSave(s)
  {
  }

  /** A preference write leaves the save record and the timestamp as they were. */
  lemma SetPreferenceKeepsSave(s: Store, p: string)
    ensures HasAutoSave(AfterSetPreference(s, p)) == HasAutoSave(s)
    ensures GetAutoSaveTimestamp(AfterSetPreference(s, p)) == GetAutoSaveTimestamp(s)
  {
  }

  /** A fresh store holds no save, no timestamp, and reads the default preferences. */
  lemma EmptyStoreDefaults()
    ensures !HasAutoSave(map[])
    ensures GetAutoSaveTimestamp(map[]) == NoTimestamp
    ensures GetPreference(map[]) == ASK_RESTORE
    ensures ResetPromptPreference(map[])
  {
  }
}
