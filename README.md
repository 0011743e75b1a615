# Keystroke dispatcher of the jnv query editor, in Dafny

jnv is an interactive JSON viewer that filters with jq. Its query line is an
`Editor`: a controller with two modes, **edit** and **suggestion navigation**.
It turns one terminal key event at a time into changes of a text buffer, of a
one-line guide message, and of an incremental-search session over filter
suggestions. This project models that controller (`src/editor.rs`) and the
edit-mode parser of the command line (`edit_mode_validator` in `src/main.rs`),
and proves what they promise.

Layout, one module per file:

- `wrappers.dfy` (`Wrappers`): `Option` and `Result`.
- `crossterm.dfy` (`Crossterm`): key events (code, modifier bits, kind, state
  bits) with structural equality, terminal events, colours and styles.
- `text_editor.dfy` (`TextEditor`): the prompt state (`text_editor::State`)
  and the buffer operations the dispatcher calls, with the buffer held as a text
  and a cursor position.
- `search.dfy` (`IncrementalSearch`): the suggestion session (loaded
  candidates and the index of the current one). The provider behind it is a
  parameter: a total function from a prefix to the page it loads, or an error.
- `format.dfy` (`Format`): the decimal rendering of counts in guide messages.
- `editor.dfy` (`Editor`): the controller. Class `Editor` keeps the source's
  fields and updates them in place. Each of its methods is proved against a step
  function on `EditorState` (mode, prompt state, guide, searcher):
  `Focus`/`FocusStep`, `Defocus`/`DefocusStep`, `Edit`/`EditStep`,
  `Search`/`SearchStep` and `Operate`/`OperateStep`. The dispatcher's
  properties are lemmas about those functions.
- `cli.dfy` (`Cli`): `edit_mode_validator`.

The two boxed handlers `BOXED_EDITOR_KEYBIND` and `BOXED_SEARCHER_KEYBIND`
become the two values of `Keybind`, and `Operate` matches on it. Edit mode
tests an event against the bindings in a fixed order. The model writes that
order out as a table (`Table`), and `ResolveEdit` takes the first binding whose
key equals the event, then the literal-character pattern, then "ignore". The
lemmas `FirstBindingWins` and `ResolvedActionIsFirstMatch` show that this is
exactly first-match-wins.

Three facts about the code shape the model:

- `operate` returns `anyhow::Result<()>`, but every path of `edit`
  (src/editor.rs:232) and of `search` (src/editor.rs:268 and 272) returns
  `Ok(())`. A failed `start_search` only becomes a guide message
  (src/editor.rs:153-156), and stepping through suggestions has no error path.
  So `Operate`, `Edit` and `Search` always return `Ok(())`.
- Control, Alt and combined modifiers are not literal input. The pattern at
  src/editor.rs:214-224 needs the modifier bits to be exactly NONE or exactly
  SHIFT, and the key-event state to be exactly NONE. So Control+c, Alt+c,
  Shift+Control+c and a key reported with Caps Lock state are all ignored
  unless bound (`LiteralCharShape`, `UnboundEventIsNoOp`).
- Navigation keys are plain Tab or Down with modifiers NONE, kind Press and
  state NONE (src/editor.rs:238-249). Any other event in navigation mode,
  including non-key events such as a resize or a paste, leaves the search and
  is handled by edit mode.

The completion prefix is the whole buffer text (`text_without_cursor`,
src/editor.rs:128), wherever the cursor is (`CompletionIgnoresCursor`).

## Model

| member | source | states |
|---|---|---|
| `Editor.Editor.constructor` | src/editor.rs:48-67 | a new editor is in edit mode, with empty guide text and the default style, and holds the given prompt state, searcher, themes and bindings |
| `Editor.Editor.Focus` | src/editor.rs:69-74 | the new state is `FocusStep` of the focus theme: the four display attributes are copied in and nothing else changes |
| `Editor.Editor.Defocus` | src/editor.rs:76-86 | the new state is `DefocusStep` of the defocus theme: display attributes copied, search left, edit mode forced, guide text emptied |
| `Editor.Editor.Text` | src/editor.rs:88-90 | returns the buffer's text without the cursor; it reads the editor and changes nothing |
| `Editor.Editor.Operate` | src/editor.rs:104-121 | runs the handler of the current mode (`OperateStep`), keeps the invariant, always returns Ok |
| `Editor.Editor.Edit` | src/editor.rs:123-233 | the new state is `EditStep`: guide text cleared, then the one resolved action; returns Ok even when the lookup fails |
| `Editor.Editor.Search` | src/editor.rs:235-273 | the new state is `SearchStep`: step down or up and show the candidate, or leave the search and hand the same event to `Edit` |
| `Editor.FirstBindingWins` | src/editor.rs:126-211 | an event equal to binding k and to no earlier binding runs binding k's action, in the order completion, backward, forward, head, tail, previous-nearest, next-nearest, erase, erase-all, erase-previous, erase-next |
| `Editor.ResolvedActionIsFirstMatch` | src/editor.rs:126-211 | conversely, a bound action is chosen only through the first binding the event equals |
| `Editor.UnboundFallsThrough` | src/editor.rs:213-230 | an event equal to no binding is typed when it is a literal character and ignored otherwise |
| `Editor.LiteralCharShape` | src/editor.rs:214-224 | literal input is exactly a pressed `Char` with modifiers NONE or SHIFT and state NONE |
| `Editor.UnboundEventIsNoOp` | src/editor.rs:213-232 | an unbound event that is not such a character leaves everything unchanged except the guide text, which becomes empty |
| `Editor.LiteralCharIsTyped` | src/editor.rs:213-228 | an unbound literal character is inserted in Insert mode and overwrites in Overwrite mode; nothing else changes but the guide text |
| `Editor.EditClearsGuide` | src/editor.rs:123-158 | every edit dispatch empties the guide text; only a completion sets it again (to a non-empty text) and only a completion can change the mode or the searcher |
| `Editor.EqualBindingsRunOnce` | src/editor.rs:161-166 | with backward and forward bound to the same key, that key moves the cursor back once and does not also move it forward |
| `Editor.CompletionLookupFails` | src/editor.rs:153-156 | a failed lookup sets the yellow guide "Failed to lookup suggestions: <e>" and leaves buffer, mode and searcher unchanged |
| `Editor.CompletionFindsNothing` | src/editor.rs:148-151 | no head item: yellow guide "No suggestion found for '<prefix>'" with the buffer text as prefix; buffer and mode unchanged, no session open |
| `Editor.CompletionFindsHead` | src/editor.rs:130-147 | a head item: the buffer text becomes the head (the current candidate), navigation mode starts, and the green guide reads "Loaded all (n) suggestions" or "Loaded partially (n) suggestions" as the load is complete or not |
| `Editor.LoadedMessageExamples` | src/editor.rs:133-149 | the messages for seven of all, three of some, and no match for the empty prefix read "Loaded all (7) suggestions", "Loaded partially (3) suggestions" and "No suggestion found for ''" |
| `Editor.LoadedMessageDeterminesLoadState` | src/editor.rs:132-144 | a load summary tells whether all were loaded, and its numeral reads back as the count |
| `Editor.SearchStepsDown` | src/editor.rs:238-255 | plain Tab or Down, matched before the up binding, steps the searcher down and puts the current candidate in the buffer; mode and guide stay |
| `Editor.SearchStepsUp` | src/editor.rs:257-263 | the up binding steps the searcher up and puts the current candidate in the buffer; mode and guide stay |
| `Editor.SearchLeaveReplays` | src/editor.rs:265-269 | any other event leaves the search, switches to edit mode, and ends in exactly the state edit mode reaches on that event |
| `Editor.ThemeRoundTrip` | src/editor.rs:69-80 | a theme copied onto the prompt reads back as that theme, and re-applying the prompt's own theme changes nothing |
| `Editor.FocusOnlyRestyles` | src/editor.rs:69-74 | focus sets the four display attributes to the focus theme, changes buffer, edit mode, word breaks, mode, guide and searcher not at all, and is idempotent |
| `Editor.DefocusResets` | src/editor.rs:76-86 | defocus applies the defocus theme, keeps the buffer, forces edit mode, closes the search, empties the guide text and keeps the guide style |
| `Editor.FocusDefocusFocus` | src/editor.rs:69-80 | focus, defocus, focus leaves exactly the focus theme's attributes and the prompt state a single focus gives |
| `Editor.OperateKeepsInv` | src/editor.rs:104-106 | one operate keeps the invariant that navigation mode has an open session |
| `Editor.RunKeepsInv` | src/editor.rs:104-106 | any sequence of operate calls keeps that invariant |
| `Editor.GuideDoesNotPersist` | src/editor.rs:123-124 | the guide text set by one edit dispatch is gone after the next, unless the next is a completion |
| `Editor.ResolveEdit` | src/editor.rs:126-230 | an event resolves to a typed character or to "ignore" exactly when it equals no binding; a typed character is the event's literal character, and "ignore" means it has none |
| `Editor.CompletionIgnoresCursor` | src/editor.rs:127-147 | the completion searches for the whole buffer text: moving the cursor beforehand changes neither the search, the guide, the mode nor the buffer text, and once navigation starts not the cursor either |
| `TextEditor.TextWithoutCursor` | src/editor.rs:89 | the buffer's text is the part before the cursor followed by the part after it, with no cursor mark in it |
| `TextEditor.InsertChar` | src/editor.rs:226 | inserting at the cursor lengthens the text by one, keeps the text before and after, puts the character at the cursor and moves past it |
| `TextEditor.OverwriteChar` | src/editor.rs:227 | away from the tail it replaces only the character under the cursor and keeps the length; at the tail it inserts |
| `TextEditor.Replace` | src/editor.rs:145 | the text becomes the given string, with the cursor at its tail |
| `TextEditor.Backward` | src/editor.rs:161-163 | the cursor moves one left unless at the head; the text is unchanged |
| `TextEditor.Forward` | src/editor.rs:164-166 | the cursor moves one right unless at the tail; the text is unchanged |
| `TextEditor.MoveToHead` | src/editor.rs:167-169 | the cursor goes to the head; the text is unchanged |
| `TextEditor.MoveToTail` | src/editor.rs:171-173 | the cursor goes to the tail; the text is unchanged |
| `TextEditor.MoveToPreviousNearest` | src/editor.rs:176-181 | the cursor moves left, not past a word-break character; the text is unchanged |
| `TextEditor.MoveToNextNearest` | src/editor.rs:183-188 | the cursor moves right, not past a word-break character; the text is unchanged |
| `TextEditor.Erase` | src/editor.rs:191-193 | the character before the cursor is removed and the cursor moves one left; nothing happens at the head |
| `TextEditor.EraseAll` | src/editor.rs:194-196 | the buffer becomes empty |
| `TextEditor.EraseToPreviousNearest` | src/editor.rs:199-204 | a run of characters just before the cursor is removed, with no word break inside it except possibly the last one; the rest of the text is kept |
| `TextEditor.EraseToNextNearest` | src/editor.rs:206-211 | a run of characters from the cursor is removed, with no word break inside it after the first one; the cursor stays |
| `TextEditor.EraseUndoesInsert` | src/editor.rs:191-226 | erasing right after inserting a character restores the buffer exactly |
| `TextEditor.InsertAndOverwriteLengths` | src/editor.rs:225-227 | typing in Insert mode adds one character and keeps the ones before the cursor; in Overwrite mode away from the tail the length stays |
| `TextEditor.ForwardUndoesBackward` | src/editor.rs:161-166 | backward and forward undo each other away from the ends |
| `TextEditor.NoBreaksReachEnds` | src/main.rs:194 | with the default, empty word-break set, the word motions go to the head and to the tail |
| `IncrementalSearch.StartSearch` | src/editor.rs:128-130 | a provider error is reported and keeps the searcher; otherwise the session holds the loaded candidates, the count is their number, and the head item is absent iff none were loaded, else it is the current candidate |
| `IncrementalSearch.CurrentItem` | src/editor.rs:254 | in an open session the current item is one of the loaded candidates, and just after a start it is the first one; a closed session gives the empty string |
| `IncrementalSearch.DownWithLoad` | src/editor.rs:250 | moves to the next loaded candidate, staying on the last one; the candidates are unchanged |
| `IncrementalSearch.Up` | src/editor.rs:258 | moves to the previous candidate, staying on the first; the candidates are unchanged |
| `IncrementalSearch.LeaveSearch` | src/editor.rs:266 | the session is closed and the provider kept |
| `IncrementalSearch.UpUndoesDown` | src/editor.rs:250-258 | stepping down and back up returns to the same candidate when there is a next one |
| `IncrementalSearch.SteppingKeepsSession` | src/editor.rs:250-262 | stepping keeps an open session open, so the buffer always shows a loaded candidate |
| `Format.NatToString` | src/editor.rs:133-136 | the count is written as a decimal numeral with no leading zero |
| `Format.DecimalRoundTrip` | src/editor.rs:139-142 | that numeral reads back as the count |
| `Cli.EditModeValidator` | src/main.rs:125-131 | "insert" and "" give Insert, "overwrite" gives Overwrite, and every other string is the error "edit-mode must be 'insert' or 'overwrite'" |
| `Cli.EditModeNameRoundTrip` | src/main.rs:125-131 | each mode's name parses back to that mode |
| `Cli.DefaultEditModeParses` | src/main.rs:62-66 | the declared default "insert" parses to Insert |
| `Cli.EditModeIsCaseSensitive` | src/main.rs:126-129 | "Insert" and "OVERWRITE" are refused with that error |

## Left out

- Pane creation (`create_editor_pane`, `create_searcher_pane`, `create_guide_pane`): it only renders, through the terminal library.
- Async execution and the boxing of the handlers as `fn` values: modelled as synchronous calls over the two-valued `Keybind`.
- Styles: `ContentStyle` is reduced to its foreground and background colours; underline colour and attributes do not occur in the dispatcher.
- The prompt state's history, mask and line limit: the dispatcher never touches them.
- `TextEditor.MoveToPreviousNearest`, `TextEditor.MoveToNextNearest`, `TextEditor.EraseToPreviousNearest`, `TextEditor.EraseToNextNearest`: the text-editor library's word-boundary rule is not part of this model. Its stand-in is a plain rule (start of the current word / next word-break character), and the contracts state only what any such rule gives: motion in the right direction, the text kept or a contiguous run next to the cursor removed.
- `TextEditor.Replace`: that the library puts the cursor at the tail is an assumption of this model.
- `IncrementalSearch.StartSearch`: the suggestion provider (jq evaluation, ranking, chunk sizes) is a parameter. The searcher's source file is not part of this model. That the head item is the first loaded candidate, that `loaded_item_len` counts them, and that a failure leaves the searcher as it was are assumptions of this model.
- `IncrementalSearch.DownWithLoad`: does not load further pages in the background when the last loaded candidate is reached; it stays on that candidate. The model stops at both ends; whether the real list stops or wraps is an assumption.
- `IncrementalSearch.Up`: stops on the first candidate, by the same assumption as `DownWithLoad`.
- `IncrementalSearch.CurrentItem`: the empty string for a closed session is the model's own choice. The searcher's source is not part of this model, and the dispatcher only asks for the current item while a session is open (`Inv`, `SteppingKeepsSession`).
- Key-event equality: two key events are the same binding iff their code, modifier bits, kind and state are all equal. crossterm's own `PartialEq` for `KeyEvent`, which may normalise Shift and letter case, is not part of this model.
- Mouse events keep only their position; paste and resize keep their payload. The dispatcher only compares events for equality.
- `Editor.Editor.Edit` requires edit mode to be current, as every caller in the source ensures (`operate` in edit mode, or `search` after switching back).
- `parse_input` (file and standard-input reading) and `main` (argument parsing, prompt loop, JSON provider, formatter set-up): I/O and start-up wiring through external libraries.
- Integer widths: `loaded_item_len` (`usize`) is a `nat`; no count in the dispatcher comes near the bound.
