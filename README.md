# Autosave manager model

A Dafny model of `AutoSaveManager` (`lib/autosave.js`), the component of the OI coach game that
keeps the game's save in the browser's `localStorage` and decides what to do with it when the page
loads. The manager owns four storage entries:

- the save blob `oi_coach_save`, which the game itself writes;
- the autosave timestamp `oi_coach_autosave_timestamp`;
- the restore preference `oi_coach_autosave_preference`: `auto_restore`, `ask_restore` or `no_restore`;
- the restart-confirmation flag `oi_coach_reset_prompt`.

The model has four modules:

- `Storage` (storage.dfy): `localStorage` as a `map<string, string>`. It has a pure function for
  each read the manager makes, and a pure `After…` function for the store each write leaves.
  Their contracts state read-back, rejection and "no other key changes".
- `Decimal` (decimal.dfy): the decimal text `Date.now().toString()` writes and how the
  timestamp read turns it back into a number. It holds the inductive round-trip proof.
- `AutoSave` (manager.dfy): the class `AutoSaveManager`. Its fields are the store, the
  game-reference flag, one flag per injected callback (`saveGame`, `loadGame`, `renderAll`)
  saying whether it is attached as a function, and `hasShownPrompt`. A ghost log `effects`
  records every callback call and every restore prompt, in order. The invariant `Valid()`
  says the log holds exactly one prompt when `hasShownPrompt` is set and none otherwise. Every
  method keeps `Valid()`, so across any sequence of calls the prompt is shown at most once.
  Each method's `ensures` gives the new store as a `Storage` function of the old one, and the
  new log as the old log plus the calls the source makes on that path.
- `Wrappers` (wrappers.dfy): `Option`.

Several inputs come from outside the manager, so they are method parameters:

- what `loadGame()` returns (`loadResult`);
- the user's answer to the restore prompt (`disable`);
- `Date.now()` (`now`);
- how the settings dialog is closed (`SettingsChoice`: cancel, or save with the checked radio
  button, if any, and the checkbox state).

The model follows the code, including where the code is looser than its names suggest:

- `getPreference` returns any non-empty stored string unchanged; it does not fall back to
  `ask_restore` for an unrecognised value. Such a value therefore restores without a prompt
  (the prompt needs exactly `ask_restore`) and does not stop the save tick.
- The restart-confirmation flag defaults to true only when the key is absent. Any stored value
  other than `"true"`, the empty string included, reads as false.
- The settings dialog writes the flag key directly. If no radio button is checked (possible only
  when the stored preference is unrecognised), confirming fails when it reads the selected value.
  In that case nothing is written, the flag included.
- `autoSave` writes only the timestamp. The blob is written by the game's `saveGame` callback.

## Model

| member | source | states |
|---|---|---|
| `Storage.GetPreference` | lib/autosave.js:46-54 | the preference read is never empty; it is `ask_restore` when the key is absent or empty; any non-empty stored value, recognised or not, is returned verbatim (no membership check) |
| `Storage.IsPreference` | lib/autosave.js:59 | membership in the three preference strings; its meaning is carried by `AfterSetPreference` (accepted and written exactly for members) and `AutoSave.AutoSaveManager.SetPreference` (returns true exactly for members) |
| `Storage.HasAutoSave` | lib/autosave.js:90-97 | a save exists exactly when the blob key is present and non-empty; its behaviour under the writes is carried by `AfterClearAutoSave` (false after clearing), `AfterAutoSave` and `SetPreferenceKeepsSave` (unchanged by those writes) and `EmptyStoreDefaults` (false on a fresh store) |
| `Storage.AfterSetPreference` | lib/autosave.js:57-68 | a recognised preference is written and `GetPreference` then returns it; any other string leaves the store identical; no key other than the preference key ever changes |
| `Storage.SetPreferenceKeepsSave` | lib/autosave.js:57-68 | a preference write never changes whether a save exists or what the timestamp reads |
| `Storage.AfterAutoSave` | lib/autosave.js:71-87 | a successful autosave sets the timestamp key and changes no other key; in particular the save blob (`HasAutoSave`) and the preference are as before |
| `Storage.AutoSaveTimestampRoundTrip` | lib/autosave.js:71-107 | after `autoSave` at clock value `now`, `getAutoSaveTimestamp` yields exactly `now` |
| `Storage.AutoSaveLastWriteWins` | lib/autosave.js:79 | two autosaves in a row leave the store the later one alone would |
| `Storage.GetAutoSaveTimestamp` | lib/autosave.js:100-107 | the result is null exactly when the key is absent or empty; otherwise a string of digits with an optional minus sign gives its exact integer value (see Left out for values above 2^53) and any other text is kept, undecoded, as `NotAnInteger` |
| `Decimal.ParseInteger` | lib/autosave.js:103 | the part of `parseInt` that reads digits with an optional leading minus sign, as an exact integer (see Left out for values above 2^53); its meaning is carried by `IntToDecimalRoundTrip` (it inverts the timestamp text) and by `GetAutoSaveTimestamp` |
| `Storage.AfterClearAutoSave` | lib/autosave.js:130-140 | clearing removes exactly the blob and the timestamp keys and keeps every other entry's value; afterwards `hasAutoSave` is false, the timestamp is null and the preference reads as before |
| `Storage.ClearAutoSaveIdempotent` | lib/autosave.js:130-140 | clearing twice leaves the same store as clearing once |
| `Storage.EmptyStoreDefaults` | lib/autosave.js:90-97 | on an empty store there is no save and no timestamp, the preference reads `ask_restore` and the restart-confirmation flag reads true |
| `Storage.ResetPromptPreference` | lib/autosave.js:224-228 | the restart-confirmation flag reads true when the key is absent and otherwise exactly when it holds `"true"`; carried by `AfterResetPromptCommit` (the written checkbox state reads back), `AfterSettingsCommit` and `EmptyStoreDefaults` |
| `Storage.AfterResetPromptCommit` | lib/autosave.js:333-337 | writing the checkbox stores the text `"true"` or `"false"`, so the flag reads back as the checkbox (absent reads true, otherwise true iff `"true"`); only the flag key changes |
| `Storage.AfterSettingsCommit` | lib/autosave.js:327-337 | a confirmed settings dialog stores the flag text `"true"` or `"false"` for the checkbox, which reads back as the checkbox, whatever happened to the preference write; a recognised selection is stored and read as the preference; a rejected one leaves every key but the flag untouched; only those two keys ever change |
| `Decimal.NatToDecimal` | lib/autosave.js:79 | the text of a natural number is a non-empty digit string, a single digit exactly below 10, starting with `0` only for zero (no leading zeros) |
| `Decimal.IntToDecimal` | lib/autosave.js:79 | the text of an integer starts with `-` exactly when it is negative; otherwise it is all digits without a leading zero |
| `Decimal.NatToDecimalValue` | lib/autosave.js:103 | the digits written for `n` denote `n` |
| `Decimal.IntToDecimalRoundTrip` | lib/autosave.js:103 | reading back the text of any integer gives that integer |
| `AutoSave.AutoSaveManager.constructor` | lib/autosave.js:20-26 | a new manager has no callbacks, no game reference, has not prompted, has an empty log and sees the existing storage |
| `AutoSave.AutoSaveManager.SetSaveCallback` | lib/autosave.js:29-31 | sets whether a callable `saveGame` is attached and nothing else |
| `AutoSave.AutoSaveManager.SetLoadCallback` | lib/autosave.js:33-35 | sets whether a callable `loadGame` is attached and nothing else |
| `AutoSave.AutoSaveManager.SetRenderCallback` | lib/autosave.js:37-39 | sets whether a callable `renderAll` is attached and nothing else |
| `AutoSave.AutoSaveManager.SetGameReference` | lib/autosave.js:41-43 | sets whether a game reference is present and nothing else |
| `AutoSave.AutoSaveManager.SetPreference` | lib/autosave.js:57-68 | returns true exactly for the three preferences; the new store is `AfterSetPreference` of the old |
| `AutoSave.AutoSaveManager.AutoSave` | lib/autosave.js:71-87 | returns whether a game reference is present; without one nothing is written, with one the new store is `AfterAutoSave(old, now)` |
| `AutoSave.AutoSaveManager.RestoreAutoSave` | lib/autosave.js:110-127 | `loadGame` is called once, and its result returned, exactly when the blob is present and non-empty and a load callback is attached; otherwise false is returned and no call is made; the store is never written |
| `AutoSave.AutoSaveManager.ClearAutoSave` | lib/autosave.js:130-140 | returns true; the new store is `AfterClearAutoSave` of the old |
| `AutoSave.AutoSaveManager.SaveTick` | lib/autosave.js:367-388 | the shared body of the unload and interval handlers: when the preference is `no_restore` or no game is attached, nothing is written and no callback is called; otherwise `saveGame(true)` is called if attached and the timestamp is stamped |
| `AutoSave.AutoSaveManager.HandleRestore` | lib/autosave.js:394-431 | returns true exactly when the preference is not `no_restore`, a save exists, a loader is attached and it succeeds. On the skip paths `loadGame` is not called; on every failure path there is no render, no prompt, the flag and the store are unchanged. On success `renderAll` (if attached) is called once, after the load. The prompt follows only in exact `ask_restore` mode when no prompt was shown before, and then sets the flag. A later call never prompts. A `disable` answer writes `no_restore`, so `GetPreference` reads `no_restore` afterwards |
| `AutoSave.AutoSaveManager.OfferRestorePrompt` | lib/autosave.js:421-428 | the prompt is shown, and the flag set, exactly when the preference is `ask_restore` and no prompt was shown before; the store changes, to `no_restore`, only when that prompt is answered "disable" |
| `AutoSave.AutoSaveManager.ShowSettingsDialog` | lib/autosave.js:220-337 | the dialog opens with the current preference and flag reads; cancelling writes nothing; confirming with a checked radio button leaves `AfterSettingsCommit` of the old store; confirming with none checked writes nothing |
| `AutoSave.RestoreTwiceInAskMode` | lib/autosave.js:394-431 | in ask mode with a save and a succeeding loader, two calls of `handleRestore` in one process show exactly one prompt. The first call restores. The second restores exactly when the prompt was not answered "disable", and the preference reads `no_restore` afterwards exactly when it was |

## Left out

- Dialog and toast construction (`showRestorePrompt`'s DOM and the settings dialog's markup, styling, button wiring, `modal.remove()`, the 2-second toast): the prompt becomes the `disable` parameter and the dialog a `SettingsChoice` parameter. The prompt's display of the saved time is not modelled.
- The registration of the `beforeunload` listener and of the 30-second `setInterval` in `init`: only the handler body is modelled, by `SaveTick`.
- `async`/`await`: `handleRestore` is modelled as one sequential step with the prompt's answer known up front. In the program the event loop keeps running while the prompt is open, so the interval and `beforeunload` bodies can fire then and call `saveGame(true)` and write the timestamp; the model does not interleave ticks with an open prompt.
- `console` logging.
- `localStorage` exceptions caught by the `try`/`catch` blocks: the store never fails in the model.
- What the injected callbacks do: the model assumes `saveGame`, `loadGame` and `renderAll` do not touch the store (in the game, `saveGame` writes the blob). Their calls are only logged, and the result of `loadGame` is a parameter. It also assumes `saveGame` and `renderAll` return normally: they are called outside any `try`/`catch`, so a throwing `saveGame` would skip the `autoSave` of that tick, and a throwing `renderAll` would reject `handleRestore` before `hasShownPrompt` is set and before any prompt; `SaveTick` and `HandleRestore` always carry on. A throwing `loadGame` is caught inside `restoreAutoSave` and is covered by `loadResult` false.
- The global singleton created at lines 435-436.
- `Decimal.ParseInteger`, `Storage.GetAutoSaveTimestamp`: the read matches `parseInt` only for strings of digits with an optional leading minus sign, and only up to 2^53 in magnitude: above that `parseInt` rounds to the nearest double (and past about 1.8e308 gives Infinity), while the model keeps the exact integer. Every timestamp `autoSave` writes for a real clock value is far below that bound. Other text (leading spaces, a `+` sign, `0x` prefixes, trailing garbage, where `parseInt` reads a prefix or yields NaN) becomes `NotAnInteger`.
- `Decimal.IntToDecimal`: `Number.prototype.toString()` is modelled as exact decimal text of an unbounded integer. The exponent notation JavaScript uses from 1e21 on, and the loss of precision above 2^53, are not modelled. Both are far beyond any `Date.now()` value.
- `AutoSave.AutoSaveManager.SetSaveCallback`, `SetLoadCallback`, `SetRenderCallback`, `SetGameReference`: a callback or reference is kept only as whether it is a function (or, for the game, truthy). That is all `autoSave`, `restoreAutoSave`, `handleRestore` and the tick ever test.
