# anki-llm terminal UI, modelled in Dafny

anki-llm turns a PDF into Anki flash cards. The user picks a PDF in a
terminal UI built on Bubble Tea. An LLM generates the notes, the user
reviews and selects them, picks or creates a deck, and sends the notes to
Anki through AnkiConnect.

This project models the terminal UI's session state and its four-screen
state machine in `internal/ui`:

- the shared `AppState` with its initial-state rule;
- the list helpers that act on it (reset, cursor move, toggle one,
  toggle all, selected notes, visible decks, and the shared result dispatch);
- the `Update` of each screen: picker, notes, deck selector and deck creation.

It also models the two earlier monolithic versions of the same machine as
modules of their own:

- `internal/ui/model.go`: one model with a state enum;
- `ui/model.go`: one model with a `picking` flag and no deck screens.

Modules, one per source file or concept:

- `UiTypes` (ui_types.dfy): messages, commands, screens, and what the
  library widgets answer.
- `Selection` (selection.dfy): the selection set and the cursor as values.
- `Shared` (shared.dfy): `AppState` as a class, the helpers, and their
  specifications on a `Session` value.
- `PickerScreen`, `NotesScreen`, `DeckSelectScreen`, `DeckCreateScreen`: the
  four screen models.
- `Machine` (machine.dfy): the active-screen dispatch that replaces the
  screen factory, plus a message loop over a sequence of events.
- `LegacyNotes`, `MonolithUi`, `PickingUi`: the monolithic versions.
- `Scenarios` (scenarios.dfy): concrete sessions driven through the handlers.

How the model represents the runtime:

- Each handler changes the class fields in place.
- Every class has a ghost `View()` that returns its fields as a `Session`
  value. This lets a contract state the whole new state, for example
  `View() == old(View()).(status := "select deck")`. What the new state
  means is then proved about the specification functions on `Session`.
- A background task (a `tea.Cmd` closure) is represented by the command
  value a handler returns: `Generate`, `AddNotes` or `CreateDeck`. Its
  completion arrives later as a message.
- A command that only a library widget produces is `Widget`. These are
  the spinner tick, the cursor blink, a directory read and a screen's `Init`.
- `tea.Batch` is `Batch`. A Go panic is `Crash`.
- The file picker and the text input are oracles: a `PickerReply` or an
  `InputReply` says what the widget answers to the message.

## Model

| member | source | states |
|---|---|---|
| Selection.ClampCursor | internal/ui/shared/helpers.go:30-37 | the moved cursor stays in `[0, n)`; it is `cursor+delta` when that is in range, 0 below it and `n-1` above it |
| Selection.Toggled | internal/ui/shared/helpers.go:45-49 | membership of the toggled index flips; every other index keeps its membership |
| Selection.Upto | internal/ui/shared/helpers.go:61-63 | the indices of an n-note list are exactly `0..n-1`, and there are n of them |
| Selection.ToggledTwice | internal/ui/shared/helpers.go:41-50 | toggling the same index twice restores the selection |
| Selection.ToggledWithin | internal/ui/shared/helpers.go:41-50 | toggling an index of the list keeps the selection inside the list |
| Selection.FullSelectionIsAll | internal/ui/shared/helpers.go:57 | a selection inside the list with as many indices as notes is every index |
| Selection.ToggleAllFromPartial | internal/ui/shared/helpers.go:57-63 | from a partial selection, select-all yields exactly every index |
| Selection.ToggleAllFromFull | internal/ui/shared/helpers.go:57-59 | from a full selection, select-all clears it |
| Selection.ToggledAllWithin | internal/ui/shared/helpers.go:53-64 | select-all keeps the selection inside the list |
| Selection.ToggleAllTwiceClearsPartial | internal/ui/shared/helpers.go:53-64 | pressed twice from a partial selection, select-all ends empty, so a non-empty partial selection is not restored |
| Selection.ToggleAllIsNotAnInvolution | internal/ui/shared/helpers.go:53-64 | with two notes and note 0 selected, two presses leave nothing selected |
| Shared.AppState.constructor | internal/ui/shared/state.go:60-99 | the initial session: note model "Basic", no PDF, the listed decks, deck cursor 0, no notes, no selection, cursor 0, no error, not loading; it satisfies the invariant |
| Shared.ResetListsEveryRaw | internal/ui/shared/helpers.go:8-23 | after a reset, item i has index i, Front and Back from map i ("" when absent) and map i itself; the selection is empty, the cursor 0, and nothing else changes |
| Shared.NotesToItems | internal/ui/shared/helpers.go:8-16 | the loop builds exactly the item list `ItemsOf(raws)`; the monolithic versions use the same conversion (internal/ui/model.go:135-143, ui/model.go:101-109) |
| Shared.HelpersKeepInv | internal/ui/shared/helpers.go:19-64 | reset, move, toggle and toggle-all each keep the invariant: selection inside the list, cursor on a note (0 on an empty list), each note at its own index |
| Shared.ToggleTwiceRestores | internal/ui/shared/helpers.go:41-50 | ToggleCurrentNote applied twice restores the whole session |
| Shared.AppState.ResetNotes | internal/ui/shared/helpers.go:19-23 | the new state is `AfterReset` of the old, and the invariant holds |
| Shared.AppState.MoveNotesCursor | internal/ui/shared/helpers.go:26-38 | no change on an empty list, otherwise only the cursor changes, to the clamped position |
| Shared.AppState.ToggleCurrentNote | internal/ui/shared/helpers.go:41-50 | no change on an empty list, otherwise only the index under the cursor flips |
| Shared.AppState.ToggleAllNotes | internal/ui/shared/helpers.go:53-64 | no change on an empty list, otherwise select-all with the loop `SelectEvery` |
| Shared.SelectEvery | internal/ui/shared/helpers.go:61-63 | the loop adds exactly the indices `0..n-1` to the selection |
| Shared.CollectRaws | internal/ui/shared/helpers.go:67-73 | ranging over the selection in any order, every selected index is taken once, and it succeeds exactly when every index names a note |
| Shared.AppState.SelectedNotes | internal/ui/shared/helpers.go:67-73 | under the invariant it never indexes out of range and returns one raw map per selected index (length = selection size, order unspecified) |
| Shared.VisibleDecks | internal/ui/shared/helpers.go:76-83 | length `len(DeckList)+1`; entry 0 is "+ Create new deck" and entry i+1 is deck i; getVisibleDecks (internal/ui/model.go:376-383) builds the same list |
| Shared.AppState.HandleSpinnerTick | internal/ui/shared/helpers.go:86-94 | it reports handled exactly for a spinner tick and then returns the spinner's command |
| Shared.AppState.HandleAsyncMsg | internal/ui/shared/helpers.go:97-120 | it reports handled exactly for the three results; then the new state is `AfterAsync`, otherwise nothing changes |
| Shared.AsyncKeepsInv | internal/ui/shared/helpers.go:97-116 | every result keeps the invariant, clears loading, and leaves the decks, the PDF path and the deck input alone |
| Shared.AsyncErrIsSticky | internal/ui/shared/helpers.go:99-108 | a generation error stores its text; other results, a successful generation included, leave the error as it was, so it is never cleared |
| Shared.AsyncSelection | internal/ui/shared/helpers.go:99-116 | an Anki result or a generation error leaves the notes and selection alone; generated notes clear the selection and cursor |
| NotesScreen.ActionOf | internal/ui/notes/model.go:31-64 | a key is ignored exactly when it is none of the eleven handled keys |
| NotesScreen.Update | internal/ui/notes/model.go:21-69 | tick and results are consumed first and the screen stays Notes; a deck result or other message changes nothing; a key acts as `KeyEffect`; only "d" leaves the screen; the step facts hold |
| NotesScreen.HandleKey | internal/ui/notes/model.go:31-64 | q/ctrl+c cancel and quit; "d" resets the deck cursor and opens the selector; up/down move; " " and "s" toggle; "a" and "r" as below; other keys change nothing |
| NotesScreen.OpenDeckSelect | internal/ui/notes/model.go:35-39 | deck cursor 0 and status "select deck", nothing else |
| NotesScreen.AddSelectedNotes | internal/ui/notes/model.go:48-56 | with no selection: status "no notes selected" and no command; otherwise loading, "adding to Anki..." and AddNotes(deck, note model, one raw map per selected note); loading is not checked |
| NotesScreen.RegenerateNotes | internal/ui/notes/model.go:57-64 | with no PDF: "no pdf selected" and no command; otherwise loading, "regenerating..." and Generate(path, note model) |
| DeckSelectScreen.MinInt | internal/ui/deckselect/model.go:57-62 | the result is at most both arguments and equals one of them |
| DeckSelectScreen.MaxInt | internal/ui/deckselect/model.go:64-69 | the result is at least both arguments and equals one of them |
| DeckSelectScreen.CursorStaysOnEntry | internal/ui/deckselect/model.go:37-40 | up and down keep the deck cursor within `[0, len(DeckList)]` and move by one when not at an end |
| DeckSelectScreen.Update | internal/ui/deckselect/model.go:21-55 | tick and results are consumed first; the deck list never changes; a key acts as `KeyEffect` |
| DeckSelectScreen.HandleKey | internal/ui/deckselect/model.go:29-51 | q/ctrl+c/esc clear the status and return to Notes; up/down move with maxInt/minInt; enter chooses; other keys change nothing |
| DeckSelectScreen.ChooseEntry | internal/ui/deckselect/model.go:41-50 | an entry whose text is "+ Create new deck" opens deck creation (the test is on text, not position); any other entry becomes the deck, with "deck changed to "+entry, back to Notes |
| DeckCreateScreen.Init | internal/ui/deckcreate/model.go:18-22 | the input is emptied and focused, nothing else changes |
| DeckCreateScreen.DeckCreatedGrowsList | internal/ui/deckcreate/model.go:32-39 | on success the name is appended and becomes the deck, so the old list is a prefix and the length grows by one; on error the deck and list are unchanged |
| DeckCreateScreen.TakeDeckCreated | internal/ui/deckcreate/model.go:32-39 | the new state is `AfterDeckCreated`: "deck created" or "error creating deck: "+error |
| DeckCreateScreen.Update | internal/ui/deckcreate/model.go:24-66 | tick and results first; a deck result goes to Notes on success and on error alike; keys and other messages act as `InputEffect`; the step facts hold |
| DeckCreateScreen.HandleInput | internal/ui/deckcreate/model.go:44-65 | the input takes the message; esc blurs and returns to Notes; enter confirms; otherwise the input's own command |
| DeckCreateScreen.ConfirmName | internal/ui/deckcreate/model.go:53-61 | an empty name gives "deck name cannot be empty", stays and starts nothing; any other gives "creating deck...", blurs and issues CreateDeck(name) |
| PickerScreen.Update | internal/ui/picker/model.go:21-56 | tick and results first and the screen stays Picker; the deck list never changes; everything else acts as `PickerEffect`; the step facts hold |
| PickerScreen.HandlePickerMsg | internal/ui/picker/model.go:29-55 | the picker's own command wins with no change; q/ctrl+c cancel and quit; a chosen file sets the path, loading and "generating notes..." and goes to Notes with Generate batched with the screen's Init; a disabled file gives "cannot select that file" |
| Machine.Start | internal/ui/ui.go:16-20 | the whole initial shared state, field by field as NewAppState builds it (note model "Basic", the listed decks and first deck, empty path, status, notes, selection and input, cursors 0, no error, not loading), with the picker as first screen |
| Machine.Step | internal/ui/factory/factory.go:18-32 | one message goes to the model the factory built for the active screen, with that screen's effect: a tick and a result are handled the same on every screen; otherwise the picker acts as `PickerEffect`, notes and the deck selector act on keys as their `KeyEffect` and ignore other messages, and deck creation applies `AfterDeckCreated` and returns to Notes on its result and acts as `InputEffect` otherwise; the step keeps the invariant, follows `MayFollow`, and keeps the step facts (the deck list only grows, the note model is fixed, the error changes only on a generation error, cancel happens exactly with Quit, loading is raised only with a task) |
| Machine.MayFollowShape | internal/ui/factory/factory.go:18-32 | once a file is chosen the picker is never shown again, deck creation is reached only from the selector, and the notes screen leads only to the selector |
| Machine.Run | cmd/anki-llm/main.go:32-36 | over any event sequence: the invariant holds, the deck list only grows, an error once set stays, the error is untouched without a generation error, cancel happens exactly when a Quit is issued; the screens visited form a trace in which each screen may follow the one before it, and once the picker is left it never appears again |
| LegacyNotes.LegacyMovesAreClamped | internal/ui/model.go:250-257 | the guarded up/down steps of both monolithic versions (also ui/model.go:158-165) equal the clamped MoveNotesCursor |
| LegacyNotes.LegacyToggleOnNotes | internal/ui/model.go:258-263 | on a non-empty list the unguarded toggle equals ToggleCurrentNote |
| LegacyNotes.LegacyToggleAllAgrees | internal/ui/model.go:264-271 | "s" behaves exactly as ToggleAllNotes, including on an empty list |
| LegacyNotes.LegacyToggleOnEmpty | internal/ui/model.go:258-263 | on an empty list the unguarded toggle selects index 0, which names no note, while ToggleCurrentNote leaves the session alone |
| LegacyNotes.LegacyStepsKeepInv | ui/model.go:158-179 | the note-list steps keep the weaker invariant, in which index 0 may be selected on an empty list |
| LegacyNotes.InvIsLegacyInv | internal/ui/model.go:258-263 | the invariant of the current version implies the weaker one the monolithic versions keep |
| LegacyNotes.LegacyAsyncKeepsInv | internal/ui/model.go:201-220 | the result messages keep the weaker invariant |
| MonolithUi.Model.constructor | internal/ui/model.go:74-112 | the same initial session as NewAppState, in StatePickingPDF |
| MonolithUi.Model.SetState | internal/ui/model.go:114-128 | the state is always stored; entering deck creation also empties and focuses the input |
| MonolithUi.Model.Init | internal/ui/model.go:130-132 | re-enters the current state |
| MonolithUi.Model.Update | internal/ui/model.go:181-238 | the deck list only grows; keys go to the handler of the current state; other messages act as `MessageEffect` |
| MonolithUi.Model.HandleMessage | internal/ui/model.go:184-235 | a tick changes nothing; results act as `AfterAsync` in every state; a deck result moves to ViewingNotes from any state; other messages reach the picker only while picking |
| MonolithUi.Model.HandleKey | internal/ui/model.go:189-200 | the key goes to the handler of the current state |
| MonolithUi.Model.TakeResult | internal/ui/model.go:201-220 | the new state is `AfterAsync`, and the weaker invariant holds |
| MonolithUi.Model.TakeNotes | internal/ui/model.go:201-207 | generated notes replace the list as `AfterReset`: fresh items, no selection, cursor 0 |
| MonolithUi.Model.TakeDeckCreated | internal/ui/model.go:221-229 | the new state is `AfterDeckCreated` and the state is ViewingNotes |
| MonolithUi.Model.HandleViewingNotes | internal/ui/model.go:241-291 | each key acts as `ViewingEffect`: guarded cursor steps, an unguarded toggle, and "a" crashing when a selected index names no note |
| MonolithUi.Model.OpenDeckSelect | internal/ui/model.go:246-249 | "d" resets the deck cursor, sets "select deck" and enters SelectingDeck |
| MonolithUi.Model.StepUp | internal/ui/model.go:250-253 | one step up unless on the first note (`LegacyUp`) |
| MonolithUi.Model.StepDown | internal/ui/model.go:254-257 | one step down unless on the last note (`LegacyDown`) |
| MonolithUi.Model.ToggleUnderCursor | internal/ui/model.go:258-263 | flips the index under the cursor without checking that a note is there (`LegacyToggle`) |
| MonolithUi.Model.ToggleEvery | internal/ui/model.go:264-271 | "s" acts as `LegacyToggleAll`, which equals ToggleAllNotes |
| MonolithUi.Model.Regenerate | internal/ui/model.go:281-288 | with no PDF: "no pdf selected"; otherwise loading, "regenerating..." and Generate(path, note model) |
| MonolithUi.Model.AddSelectedNotes | internal/ui/model.go:272-280 | getSelectedNotes panics exactly when a selected index names no note; otherwise it behaves as in the current version |
| MonolithUi.Model.HandlePickerMsg | internal/ui/model.go:294-322 | as the current picker, but the state is set directly and Generate is issued alone |
| MonolithUi.Model.HandleDeckSelection | internal/ui/model.go:325-350 | each key acts as `SelectingEffect`, with guarded cursor steps |
| MonolithUi.Model.ChooseEntry | internal/ui/model.go:340-347 | "+ Create new deck" enters deck creation; any other entry becomes the deck |
| MonolithUi.Model.HandleNewDeckCreation | internal/ui/model.go:353-373 | each key acts as `CreatingEffect` |
| MonolithUi.Model.ConfirmDeckName | internal/ui/model.go:361-369 | an empty name is refused with "deck name cannot be empty"; any other gives "creating deck...", blurs and issues CreateDeck |
| PickingUi.Model.constructor | ui/model.go:61-87 | picking, deck "Default", note model and model name "Basic", no notes or selection |
| PickingUi.Model.Init | ui/model.go:89-98 | when not picking and a PDF is set, loading is raised and Generate is batched with the spinner; otherwise only widget commands (the spinner, batched with the picker's Init while picking) and no change |
| PickingUi.Model.Update | ui/model.go:139-220 | while picking, every non-tick message, results included, goes to the file picker and the notes stay untouched; afterwards keys act as `KeyEffect`, results as `AfterAsync`, and picking never comes back |
| PickingUi.Model.UpdateFilePicker | ui/model.go:232-263 | the picker's command wins; q/ctrl+c quit; a chosen file ends picking, raises loading and issues Generate; a disabled file gives "cannot select that file" |
| PickingUi.Model.HandleKey | ui/model.go:153-197 | each key acts as `KeyEffect`: no deck key, and AddNotes uses `modelName` |
| PickingUi.Model.StepUp | ui/model.go:158-161 | one step up unless on the first note (`LegacyUp`) |
| PickingUi.Model.StepDown | ui/model.go:162-165 | one step down unless on the last note (`LegacyDown`) |
| PickingUi.Model.ToggleUnderCursor | ui/model.go:166-171 | flips the index under the cursor without checking that a note is there (`LegacyToggle`) |
| PickingUi.Model.ToggleEvery | ui/model.go:172-179 | "s" acts as `LegacyToggleAll`, which equals ToggleAllNotes |
| PickingUi.Model.Regenerate | ui/model.go:189-196 | with no PDF: "no pdf selected"; otherwise loading, "regenerating..." and Generate(path, note model) |
| PickingUi.Model.AddSelectedNotes | ui/model.go:180-188 | panics exactly when a selected index names no note; otherwise "no notes selected" or AddNotes(deck, model name, selected raws) |
| PickingUi.Model.TakeResult | ui/model.go:198-217 | the new state is `AfterAsync`: generated notes reset the selection and cursor, and an Anki result leaves the selection alone |
| PickingUi.Model.TakeNotes | ui/model.go:198-204 | generated notes replace the list as `AfterReset`: fresh items, no selection, cursor 0 |
| Scenarios.ChooseSecondDeck | internal/ui/deckselect/model.go:47-50 | with decks ["Default","French"] and cursor 2, enter makes "French" the deck with "deck changed to French" |
| Scenarios.DeckNamedLikeTheEntry | internal/ui/deckselect/model.go:42-45 | a deck named "+ Create new deck" opens deck creation |
| Scenarios.EmptyDeckName | internal/ui/deckcreate/model.go:54-57 | starting directly on the deck-creation screen (not through `DeckCreateScreen.Init`), enter on an empty name keeps the screen, sets the status and issues no command |
| Scenarios.DeckCreationFails | internal/ui/deckcreate/model.go:32-41 | starting directly on the deck-creation screen (not through `DeckCreateScreen.Init`), a failed creation keeps the catalogue, reports "error creating deck: exists" and still returns to Notes |
| Scenarios.LateDeckCreationIsDropped | internal/ui/notes/model.go:21-69 | after enter issues CreateDeck("Spanish") and esc returns to Notes, the late success result is dropped: the deck list and the active deck stay as they were |
| Scenarios.GenerateOneNote | internal/ui/shared/helpers.go:99-103 | one generated note is listed with its Front and Back, unselected |
| Scenarios.TwoSelectedNotes | internal/ui/shared/helpers.go:26-50 | from two generated notes, the helpers behind " ", "down" and " " (ToggleCurrentNote, MoveNotesCursor, ToggleCurrentNote) select both and end loading |
| Scenarios.AnkiErrorKeepsSelection | internal/ui/shared/helpers.go:109-113 | an Anki error is reported, loading ends and both selected notes stay selected |
| Scenarios.ErrorOutlivesSuccess | internal/ui/shared/helpers.go:99-108 | a generation error is still set after a later successful generation |
| Scenarios.RegenerateWhileLoading | internal/ui/notes/model.go:57-64 | "r" starts a second generation while the first is in flight |
| Scenarios.EmptyToggleThenAdd | internal/ui/shared/helpers.go:41-44 | on an empty list " " changes nothing, so "a" reports "no notes selected" |
| Scenarios.MonolithEmptyToggleThenAdd | internal/ui/model.go:258-263 | on an empty list " " then "a" panics |
| Scenarios.PickingEmptyToggleThenAdd | ui/model.go:166-171 | on an empty list " " then "a" panics |

## Left out

- Rendering is not modelled: the view files, `internal/ui/shared/styles.go` and `ui/views.go` only style strings.
- Library widgets are not modelled. The spinner, the text input and the file picker are oracles: `PickerReply` and `InputReply` give their answers. The text input is only its value and a focus flag.
- The background commands are not modelled (`internal/ui/shared/commands.go` and the command constructors in both monolithic files). They open the file, apply a 3-minute context timeout, and call Gemini or AnkiConnect. Only the command value a handler returns is modelled, and each result arrives as a message.
- The Anki client (`internal/anki/anki.go`, `anki.go`) and the Gemini wrapper (`internal/llm/llm.go`, `llm.go`) are I/O against external services. They are not part of this model.
- The entry points `main.go` and `cmd/anki-llm/main.go` are not modelled: flags, environment variables, signals and process exit.
- Context cancellation is a `cancelled` flag. The Bubble Tea runtime is only the message loop `Machine.Run`: it does not run commands, and it stops after a Quit.
- The terminal size, `pdfList`, `search` and `showHelp` fields are never read by the modelled handlers. They are not modelled.
- The screens' `Init` of picker, notes and deck selector only return widget commands, so they are the `Widget` command and have no member.
- The deck listing at start-up is an `Option` of names. `None` stands for a failed call, whose error is discarded.
- Shared.AppState.HandleSpinnerTick: the spinner's own state is not modelled, so a tick changes no modelled field.
- Machine.Step: the factory's four constructors become the `Screen` datatype, and `Step` sends each message to that screen's `Update`. A screen model holds nothing but the shared state, so a fresh screen model is the `Screen` value alone.

Behaviours of the code that a reader might not expect, all modelled as written:

- "select all" pressed twice does not restore a partial selection, because internal/ui/shared/helpers.go:57-63 clears only a full selection (`Selection.ToggleAllIsNotAnInvolution`).
- A failed deck creation also returns to the notes screen (internal/ui/deckcreate/model.go:32-42, `Scenarios.DeckCreationFails`).
- A deck-creation result that arrives after the user left deck creation (enter, then esc) is dropped by the notes and deck-selection screens (internal/ui/notes/model.go:21-69, internal/ui/deckselect/model.go:21-55): the deck exists in Anki but is never added to `DeckList` nor made active (`Scenarios.LateDeckCreationIsDropped`).
- A later success never clears a generation error: only the error case of internal/ui/shared/helpers.go:104-108 writes `Err` (`Shared.AsyncErrIsSticky`).
- No handler reads `Loading`, so "a" and "r" (internal/ui/notes/model.go:48-64) can start a second task while one is in flight (`Scenarios.RegenerateWhileLoading`).

## Findings

| source | as written | input that shows it | evidently intended | confidence | as-written member | corrected member |
|---|---|---|---|---|---|---|
| internal/ui/model.go:258-263 | " " toggles index `cursor` even when the note list is empty, so index 0 is selected with no note behind it; "a" then indexes `notes[0]` in getSelectedNotes (internal/ui/model.go:386-391) and panics | pick a PDF, then press " " and "a" before any note arrives (or after a generation error) | toggle only when a note is under the cursor, as internal/ui/shared/helpers.go:42-44 does | high; not executed | Scenarios.MonolithEmptyToggleThenAdd | Shared.AppState.ToggleCurrentNote |
| ui/model.go:166-171 | the same unguarded toggle; "a" then panics in getSelectedNotes (ui/model.go:223-229) | pick a PDF, then press " " and "a" before any note arrives | the guarded toggle of internal/ui/shared/helpers.go:41-50 | high; not executed | Scenarios.PickingEmptyToggleThenAdd | Shared.HelpersKeepInv |
