# Password manager key dispatch, in Dafny

This project models the modal keystroke state machine of a terminal
password manager written in Rust. The session record `PassMng` holds:

- the current `InputMode`: `Normal`, `Title`, `Username`, `Password`,
  `Submit`, `Search` or `List`;
- the list-widget selection;
- the stored entries and the search results;
- the search text;
- three draft buffers for a new entry: title, username and password.

The event loop of `run_app` reads one key at a time and dispatches on the
mode and the key code. It pushes characters onto the buffer of the current
mode and pops them off again. It moves through the form fields with
`Tab`/`BackTab` and cancels the form with `Esc`. It returns when `q` is
pressed in `Normal`.

The project has three modules:

- `Session` (`session.dfy`) is the state as a value. It gives the effect of
  one key (`Next`) and the loop folded over a finite sequence of keys
  (`Run`). `Run` either returns on a `q`, with the unread keys left over,
  or is still waiting for more keys.
- `App` (`pass_mng.dfy`) is the class `PassMng`, with the fields of the
  Rust record. It has the constructor, `ChangeMode` and `ClearFields`, a
  `Step` method that is the body of one loop iteration, and `RunApp`, which
  is the loop. The constructor's postcondition ties the fields to `Initial`.
  `ChangeMode` gives the old fields with only the mode replaced, and
  `ClearFields` gives `Cleared` of the old fields. `Step` and `RunApp` tie
  the new fields to `Next` and `Run` applied to the old fields.
- `SessionProperties` (`properties.dfy`) holds what is proved about `Next`
  and `Run`: the effect of each key in each mode, and properties of whole
  key sequences.

The model follows the code where the help text (src/main.rs:15-26) and the
unused `search_list` field promise more than the code does:

- `Insert` opens the form at the username field, not the title field. It
  does not clear the draft. The draft is empty anyway, because outside the
  form it is always empty (`ReachableHasNoStaleDraft`).
- `Submit` has no key that commits the entry.
- Typing in `Search` does not recompute the search results.
- `List` reacts only to `Esc`.
- The copy, delete and edit keys of the help text are not implemented.

## Model

| member | source | states |
|---|---|---|
| `App.PassMng.constructor` | src/main.rs:56-67 | a new session is in `Normal` with the default list selection, no entries, no search results and empty search text and drafts; its fields equal `Session.Initial`, which has no contract of its own and is used by `ReachableHasNoStaleDraft` |
| `App.PassMng.ChangeMode` | src/main.rs:69-71 | sets the mode and changes no other field |
| `App.PassMng.ClearFields` | src/main.rs:73-77 | empties the three draft buffers and changes no other field |
| `App.PassMng.Step` | src/main.rs:112-188 | one key event updates the fields exactly as `Session.Next` says, and reports exit exactly when `Next` exits; `Next` has no contract of its own, and its effect for every mode and key is stated by the one-key lemmas from `ExitOnlyOnQuitInNormal` to `StepKeepsNoStaleDraft`, with `FallThroughKeysInert` covering the keys that fall through in the text fields and `Search` |
| `App.PassMng.RunApp` | src/main.rs:108-190 | the loop returns after the keys `Run` consumes, in the state `Run` gives, with the rest unread; otherwise it reads every key and ends in `Run`'s waiting state |
| `Session.Pop` | src/main.rs:129-131 | removing the last character: pushing the removed character back restores the text, and an empty text stays empty |
| `Session.Cleared` | src/main.rs:73-77 | the three drafts become empty and every other field is kept |
| `Session.WithBuffer` | src/main.rs:128-180 | replaces the buffer the current mode types into; the mode, the store and every other buffer are kept |
| `Session.Run` | src/main.rs:108-190 | when the loop exits, what is left unread is a proper suffix of the keys |
| `SessionProperties.ExitOnlyOnQuitInNormal` | src/main.rs:113-116 | a key ends the loop if and only if it is `q` and the mode is `Normal` |
| `SessionProperties.NormalShortcuts` | src/main.rs:117-119 | in `Normal`, `s` enters `Search`, `l` enters `List` and `Insert` enters `Username`, with nothing else changed |
| `SessionProperties.NormalOtherKeysInert` | src/main.rs:113-121 | in `Normal`, every key other than `q`, `s`, `l` and `Insert` leaves the whole state unchanged |
| `SessionProperties.TypingAppends` | src/main.rs:128-177 | in `Title`, `Username`, `Password` or `Search`, a character (`q` included) is appended to that mode's buffer only; the mode stays |
| `SessionProperties.BackspacePops` | src/main.rs:129-180 | in those modes, backspace removes the last character of that mode's buffer only, and is a no-op on an empty buffer |
| `SessionProperties.TypeThenBackspaceRestores` | src/main.rs:128-180 | a character followed by a backspace gives back the starting state |
| `SessionProperties.TabFollowsFieldOrder` | src/main.rs:132-169 | `Tab` moves one step forward and `BackTab` one step back along Title, Username, Password, Submit, stopping at the ends; no buffer changes |
| `SessionProperties.TabThenBackTabReturns` | src/main.rs:132-160 | from `Title`, `Username` or `Password`, `Tab` then `BackTab` gives back the starting state |
| `SessionProperties.BackTabThenTabReturns` | src/main.rs:145-169 | from `Username`, `Password` or `Submit`, `BackTab` then `Tab` gives back the starting state |
| `SessionProperties.CancelDiscardsDraft` | src/main.rs:123-171 | `Esc` in any form mode goes to `Normal` and empties the three drafts; search text, entries, results and selection are kept |
| `SessionProperties.SearchKeys` | src/main.rs:173-182 | in `Search`, `Esc` goes to `Normal` and keeps the search text; no key exits or touches the drafts |
| `SessionProperties.SubmitInert` | src/main.rs:164-171 | in `Submit`, every key but `Esc` and `BackTab` leaves the state unchanged (no commit) |
| `SessionProperties.FallThroughKeysInert` | src/main.rs:123-182 | in `Title`, `Username` and `Password`, `Insert` and every unnamed key (and `BackTab` in `Title`) leave the whole state unchanged; so do `Tab`, `BackTab`, `Insert` and every unnamed key in `Search` |
| `SessionProperties.ListKeys` | src/main.rs:184-187 | in `List`, `Esc` goes to `Normal` and every other key leaves the state unchanged |
| `SessionProperties.StepKeepsStore` | src/main.rs:112-188 | no key in any mode changes the entries, the search results or the list selection |
| `SessionProperties.StepKeepsNoStaleDraft` | src/main.rs:112-188 | if the drafts are empty outside the form, they stay so after any key |
| `SessionProperties.RunConcat` | src/main.rs:108-190 | feeding two key sequences one after the other is the same as feeding their concatenation, including when the first one exits |
| `SessionProperties.ExitIsQuitInNormal` | src/main.rs:108-121 | when the loop exits, the last key read was `q` and the state was `Normal`; the keys before it run to that state without exiting |
| `SessionProperties.QuitInNormalExits` | src/main.rs:113-116 | a `q` reached in `Normal` ends the loop at once, whatever keys follow |
| `SessionProperties.RunKeepsStore` | src/main.rs:108-190 | no key sequence changes the entries, the search results or the list selection |
| `SessionProperties.EditingMatchesEdited` | src/main.rs:123-182 | characters and backspaces in a buffer mode keep the mode, leave the other buffers alone, and leave that buffer equal to the in-order net effect of the edits |
| `SessionProperties.TypedCharsAppend` | src/main.rs:128 | characters alone only append: the net effect is the text followed by the typed characters |
| `SessionProperties.TypingRun` | src/main.rs:128-177 | typing characters (including `q`) in a buffer mode appends them to that buffer and never exits |
| `SessionProperties.FormStaysOpen` | src/main.rs:123-171 | inside the form, keys without `Esc` never exit, never leave the form and never change the search text |
| `SessionProperties.InsertThenCancel` | src/main.rs:113-171 | from `Normal`, `Insert`, then any keys other than `Esc`, then `Esc`, gives the starting state with the drafts emptied |
| `SessionProperties.RunKeepsNoStaleDraft` | src/main.rs:108-190 | the "drafts empty outside the form" invariant holds after any key sequence that starts from it |
| `SessionProperties.ReachableHasNoStaleDraft` | src/main.rs:56-190 | in every state reached from a new session, the drafts are empty outside the form |
| `SessionProperties.InsertThenCancelIsIdentity` | src/main.rs:113-171 | from a reachable `Normal` state, opening the form, editing and cancelling gives back exactly the starting state |

## Left out

- The encrypted store (`src/db.rs`) is left out. It opens an SQLCipher database, sets its key and creates the table. These are foreign calls with no logic of their own, and nothing in `src/main.rs` calls it.
- Terminal setup and teardown in `main` are left out: raw mode, the alternate screen and mouse capture are I/O.
- `terminal.draw` and the `ui` layout are rendering only, so they are left out. The I/O errors that `draw` or `event::read` can return, which end the loop with an error, are left out too.
- `event::read` is replaced by a finite sequence of keys. The loop itself never ends without a `q`; `Run` and `RunApp` stop when the keys run out, and report that the loop is still waiting.
- Events other than key events (mouse, resize) and all key codes not named in the dispatch are one key, `Other`. Both fall through with no effect in every mode.
- Key modifiers are not modelled. The dispatch looks only at the key code, so a modified `q` quits as well.
- `ListState` is a library type. It is carried as an opaque value (offset, selection) that no key changes.
- The help text also lists commit, search filtering, clipboard copy, delete and edit-in-place. No code implements them, so they are not modelled.
- Encryption of the stored entries is not modelled. It is set up in src/db.rs:13, which keys the database with the passphrase. That file is left out with the store, and src/main.rs never declares or calls it.
