# keeps: the page state machine of a terminal KeePass browser

`keeps` is a Bubble Tea terminal application that unlocks a KeePass
database, lists the entries of its first group in a table, copies a
password to the clipboard with a fading progress bar, creates new entries
through a four-field form and writes the database back. This project
models the application's core in Dafny and proves properties of it:

- the **dispatcher** `Update`, which intercepts `ctrl+c` and otherwise
  hands the message to the handler named by the `page` string;
- the **unlock page** (`PasswordUpdate`, `loadDatabase`), with the decoder
  as an oracle;
- the **browse page** (`KeepassUpdate`, `saveDatabase`): copy feedback on
  `y`, the new-entry form on `o`, saving on `w`, and the self-rescheduling
  tick that makes the copy feedback decay;
- the **new-entry form** (`InitNewEntryView`, `NewentryUpdate`,
  `createEntry`) and its **focus cycler** `focusNewEntryInput`;
- the **table projection** `InitTable`;
- the **password generator** `GeneratePassword`.

Files:

- `vault.dfy` (module `Vault`): entries as ordered key/value lists,
  groups, the `Database` object behind the application's pointer, the
  entry `createEntry` builds and what reading it back gives.
- `passgen.dfy` (module `Passgen`): the 90-character alphabet and the
  generator, filling a 16-character buffer from the supplied draws.
- `form.dfy` (module `EntryForm`): the form, Go's truncating `%`, the
  focus cycler and the lemmas about the ring of four inputs.
- `table.dfy` (module `EntryTable`): rows, the twelve-asterisk mask and the
  loop that builds the rows.
- `app.dfy` (module `Keeps`): the application model, the handlers, the
  decay timer, the dispatcher and the properties of whole steps.

How the model is built. Go passes `model` by value and every handler
returns the next one, so `Model` is a datatype and every handler is a
method returning a new `Model`. The database is reached through a pointer
that `createEntry` appends through, so it is a `Database` object and
`NewentryUpdate` and `Update` declare `modifies m.db`. Each handler is
proved against a step relation (`PasswordStep`, `KeepassStep`,
`NewentryStep`) that relates the model and the database content before
and after; `Update` is proved against `UpdateStep`, which reuses them, and
the lemmas at the end of `app.dfy` are stated over `UpdateStep`. The
progress bar's percent is a count of 1/150 steps (`SetPercent(1.0)` is
150). A returned `tea.Cmd` is reduced to what the core decides: quit,
schedule one more tick, or neither.

Behaviour the model reproduces from the code:

- `InitNewEntryView` does not reset the form cursor: only the title is
  focused but the cursor stays where the previous form left it, so after
  reopening with the cursor on the user name or the password, Tab leaves
  two inputs focused (`ReopenedFormFocusesTwo`). The form's "exactly one
  input focused" invariant therefore holds only while the cursor is 0 at
  reopening (`FreshFormWellFocused`), and is not part of `Inv`.
- On a failed unlock the new, partly decoded database has already replaced
  the old one in the model (`LoadDatabase`, `UnlockOutcome`). The tooltip
  is the error's text, whatever it is; nothing makes it non-empty.
- `o` does not reset the copy-feedback percent; only Esc and Enter on the
  form do.
- After `y`, the percent reaches zero on the 150th tick but the tooltip
  still reads "Copied!"; it is cleared by the 151st tick, which schedules
  nothing (`CopyFeedbackFades`, `ChainLength`).
- `y` schedules a new tick every time, even while an earlier chain is
  still running (`CopyStartsChain`); a tick that arrives on the new-entry
  page is dropped and ends its chain (`TickOffBrowseEndsChain`).
- The unlock page tests the key type (Enter, with or without Alt); the
  form tests the key string (`enter` only) (`AltEnter`).

## Model

| member | source | states |
|---|---|---|
| `Vault.Find` | main.go:298-299 | the entry lookup answers None exactly when no value has the key, and otherwise the first value stored under it |
| `Vault.EntryOfReadBack` | main.go:201-206 | a created entry has exactly four values, and its title, user name, password and URL read back verbatim |
| `Vault.WithEntryAppends` | main.go:208 | appending makes group 0 one entry longer, keeps its earlier entries, its name and every other group, and puts the new entry last |
| `Vault.WithEntryBrowsable` | main.go:208 | appending an entry that has a UserName keeps group 0 listable by the table |
| `Passgen.GeneratePassword` | main.go:117-127 | the password has 16 characters and character i is the charset character at draw i |
| `Passgen.PasswordShape` | main.go:121-124 | every generated password is 16 characters drawn from the charset |
| `Passgen.CharsetSize` | main.go:118-119 | the alphabet has 90 characters |
| `EntryForm.SetFocus` | main.go:166-175 | setting focus changes only the flag of the input under the given index, and nothing for an index off the ring |
| `EntryForm.GoRem` | main.go:181 | Go's remainder: Dafny's for non-negative operands; for negative ones the value in (-b, 0] with `a == GoQuot(a, b) * b + r`, where `GoQuot` truncates toward zero, so exactly Go's `%` |
| `EntryForm.Refocus` | main.go:166-192 | the new cursor's input gains focus, the old cursor's input loses it, every other input is unchanged |
| `EntryForm.FocusNewEntryInput` | main.go:165-195 | values and labels unchanged; exactly the old input blurred and the new one focused; the cursor stays in [0,4) whenever cursor+direction >= -4, and equals (cursor+direction+4) mod 4 on the ring |
| `EntryForm.WrapCursorOnRing` | main.go:177-181 | for cursor in [0,4) and direction +1 or -1 the new cursor is (cursor+direction+4) mod 4, in [0,4), and the opposite step gives back the cursor |
| `EntryForm.RefocusWellFocused` | main.go:165-195 | a move keeps a form with exactly the cursor's input focused in that state |
| `EntryForm.FocusRoundTrip` | main.go:220-223 | Tab then Shift+Tab restores a well-focused form exactly |
| `EntryForm.FreshForm` | main.go:108-112 | the new form keeps the cursor, focuses only the title, and holds empty title, user name and URL and the generated password |
| `EntryForm.FreshFormWellFocused` | main.go:102-115 | the reopened form has exactly the cursor's input focused if and only if the old cursor was 0 |
| `EntryForm.ReopenThenTabFocusesTwo` | main.go:102-115 | with the cursor left on input 1 or 2, a reopened form after Tab has the title and the next input both focused |
| `EntryTable.Repeat` | main.go:300 | the repeated string has the given length and only the given character |
| `EntryTable.BuildRows` | main.go:292-302 | one row per entry; row i has ID i, the entry's title and UserName, and a password column of exactly 12 asterisks |
| `EntryTable.RowsIgnorePasswords` | main.go:296-301 | entry lists that agree on titles and user names give identical rows, whatever the passwords |
| `EntryTable.RowsAppend` | main.go:292-302 | the rows of a list with one entry appended are the old rows plus one row for the new entry |
| `Keeps.InitTable` | main.go:285-316 | `entries` becomes group 0's entry list and the table holds one row per entry with its index, title, UserName and the mask; nothing else changes |
| `Keeps.LoadDatabase` | main.go:248-268 | a fresh database holding what the decoder produced replaces the old one in both outcomes; on error only that changes, on success the table is rebuilt and the page becomes keepass |
| `Keeps.SaveDatabase` | main.go:270-283 | the tooltip becomes the encoder's error text, or "Saved!" when it succeeds; nothing else changes |
| `Keeps.CreateEntry` | main.go:201-210 | group 0 gains one entry at its end with Title, UserName, Password, URL in that order, verbatim; earlier entries are kept |
| `Keeps.InitNewEntryView` | main.go:102-115 | the form keeps its cursor, has only the title focused, and a 16-character generated password |
| `Keeps.Tick` | main.go:145-152 | a tick schedules another exactly when the percent is above zero; at zero it clears the tooltip, otherwise it takes one 1/150 step off |
| `Keeps.TicksDecay` | main.go:145-152 | after n ticks the percent is max(0, steps - n), the tooltip is cleared once n exceeds steps, and nothing else changes |
| `Keeps.ChainLength` | main.go:145-152 | a chain from `steps` reschedules on its first `steps` ticks and stops on the next |
| `Keeps.CopyFeedbackFades` | main.go:133-152 | after `y`, 150 ticks leave the percent at zero with "Copied!" still shown; the 151st clears it and schedules nothing; later ticks change nothing |
| `Keeps.PasswordUpdate` | main.go:318-337 | any key clears the tooltip; Enter loads with the typed passphrase: on error the page stays, the input is emptied and the tooltip is the error, on success the page is keepass with the table rebuilt |
| `Keeps.KeepassUpdate` | main.go:129-163 | `y` sets the percent full, the tooltip "Copied!" and schedules a tick; `o` opens the form with a generated password; `w` saves; a tick runs the decay rule; anything else changes nothing |
| `Keeps.NewentryUpdate` | main.go:212-246 | Esc returns to keepass with the percent at zero; Tab and Shift+Tab move focus by +1 and -1; Enter appends the four values, rebuilds the table, returns to keepass with the percent at zero; anything else changes nothing |
| `Keeps.Update` | main.go:339-367 | ctrl+c quits from any page and changes nothing; otherwise exactly the handler of the current page runs, and an unknown page changes nothing |
| `Keeps.InitialInv` | main.go:58-79 | the initial model satisfies the invariant |
| `Keeps.StepKeepsInv` | main.go:339-367 | every step keeps the invariant: the cursor stays on the ring, the page stays one of the three, and once unlocked the table lists exactly group 0's entries |
| `Keeps.UnlockedIsReady` | main.go:142-143 | in every state the invariant allows past the unlock page there is a database whose first group lists, so Enter on the form and `w` on the table never meet the nil pointer their preconditions exclude |
| `Keeps.CommitAppendsEntry` | main.go:224-234 | Enter on the form adds one entry with the four input values verbatim after the earlier ones, and one row with the mask after the earlier rows |
| `Keeps.CancelKeepsEntries` | main.go:217-219 | Esc leaves entries, table, form and database unchanged |
| `Keeps.UnlockOutcome` | main.go:318-330 | a failed unlock keeps the page, empties the input, shows the error and keeps the new database; a successful one shows one row per loaded entry on the keepass page |
| `Keeps.TickOffBrowseEndsChain` | main.go:212-246 | a tick on the form or the unlock page changes nothing and schedules no further tick |
| `Keeps.AltEnter` | main.go:322-323 | Alt+Enter unlocks on the unlock page but does nothing on the form |
| `Keeps.ReopenedFormFocusesTwo` | main.go:139-141 | `o` then Tab with the old cursor on input 1 or 2 leaves two inputs focused |
| `Keeps.CopyStartsChain` | main.go:133-138 | `y` resets the percent to full and asks for a tick whatever the current percent |

## Left out

- File and KDBX I/O (`os.Open`, `os.OpenFile`, the decoder and encoder, the file name from `os.Args`): the decoder is the oracle `Env.decode` from passphrase to decoded groups and error, the encoder is `Env.encode` from groups to an optional error. The file left open on an encode error is not modelled.
- `UnlockProtectedEntries` and `LockProtectedEntries`: the model does not track whether protected values are in the clear in memory.
- Credentials, metadata, UUIDs, times and sub-groups of the KeePass database and its entries: only the root groups' names and entries, and an entry's ordered values, are modelled. `GetTitle` is modelled as the first Title value's content, "" when absent; the library itself is not part of this model.
- The clipboard write and the 15-second `time.AfterFunc` clear on `y`: operating-system calls and an independent timer; the model only requires a selected row (`KeepassReady`), since an empty table would index out of range.
- The progress widget's float percent, its clamping and its `FrameMsg` animation: the percent is a count of 1/150 steps, so float rounding of the 150 decrements is not modelled; frame messages change nothing in the model.
- The text-input and table widgets' own handling of messages (typing, deleting, blinking, `j`/`k` selection, resizing): each handler's final widget `Update` call is treated as leaving the model unchanged, so typed text and a moved selection are not modelled. `table.New` is taken to select row 0.
- Terminal geometry (`term.GetSize`, `WindowSizeMsg` sizing), labels' rendering, echo modes and all `View` code.
- `math/rand` seeding, `main` and `tea.NewProgram`: randomness is the supplied sequence `Env.draws` of `rand.Intn` results.
- The Bubble Tea runtime's event loop and the delivery of scheduled ticks: the model states single steps and the command each step returns; `Ticks` delivers ticks one after another.
- Keeps.KeepassUpdate: requires a selected row for `y`, draws for `o` and a database for `w`, because the source panics or cannot proceed without them.
- Keeps.NewentryUpdate: requires, for Enter, a database whose first group exists and whose entries all hold a UserName, because `createEntry` and `InitTable` index group 0 and dereference the UserName value unchecked.
- Keeps.PasswordUpdate: requires that a successful decode yields such a database, for the same reason.
