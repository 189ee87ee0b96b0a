/**
 * Concrete sessions driven through the screen handlers, one per behaviour
 * of the code worth pinning down, and the two runs on an empty note list on
 * which the monolithic versions panic while the current version refuses
 * politely.
 */
module Scenarios {
  import opened UiTypes
  import opened Selection
  import opened Shared
  import PickerScreen
  import NotesScreen
  import DeckSelectScreen
  import DeckCreateScreen
  import MonolithUi
  import PickingUi

  const NoPick := PickerReply(false, None, false)
  const NoInput := InputReply("", false)

  /** A picker answer that reports the given file as chosen. */
  function Picked(path: string): PickerReply
  {
    PickerReply(false, Some(path), false)
  }

  /** With decks "Default" and "French", "d", two steps down and enter make "French" the active deck. */
  method ChooseSecondDeck() returns (deckName: string, status: string, next: Screen, cmd: Cmd)
    ensures deckName == "French" && status == "deck changed to French"
    ensures next == Notes && cmd == Widget
  {
    var app := new AppState(Some(["Default", "French"]));
    assert app.deckList == ["Default", "French"] && app.deckCursor == 0;
    next, cmd := NotesScreen.HandleKey(app, "d");
    assert app.deckCursor == 0 && app.deckList == ["Default", "French"];
    assert DeckSelectScreen.ActionOf("down") == DeckSelectScreen.CursorDown;
    next, cmd := DeckSelectScreen.HandleKey(app, "down");
    assert app.deckCursor == 1 && app.deckList == ["Default", "French"];
    next, cmd := DeckSelectScreen.HandleKey(app, "down");
    assert app.deckCursor == 2 && app.deckList == ["Default", "French"];
    assert DeckSelectScreen.ActionOf("enter") == DeckSelectScreen.Choose;
    next, cmd := DeckSelectScreen.HandleKey(app, "enter");
    assert DeckEntry(["Default", "French"], 2) == "French";
    deckName, status := app.deckName, app.status;
  }

  /** A deck whose name is "+ Create new deck" opens deck creation instead of being chosen. */
  method DeckNamedLikeTheEntry() returns (deckName: string, next: Screen)
    ensures deckName == CreateDeckEntry && next == DeckCreate
  {
    var app := new AppState(Some([CreateDeckEntry]));
    var cmd;
    next, cmd := NotesScreen.Update(app, Key("d"));
    next, cmd := DeckSelectScreen.Update(app, Key("down"));
    assert app.deckCursor == 1;
    next, cmd := DeckSelectScreen.Update(app, Key("enter"));
    deckName := app.deckName;
  }

  /** Enter on an empty deck name stays on the screen, says why and starts nothing. */
  method EmptyDeckName() returns (status: string, next: Screen, cmd: Cmd)
    ensures status == "deck name cannot be empty" && next == DeckCreate && cmd == NoCmd
  {
    var app := new AppState(None);
    next, cmd := DeckCreateScreen.Update(app, Key("enter"), InputReply("", false));
    status := app.status;
  }

  /** A failed deck creation reports the error, keeps the catalogue and still returns to the notes. */
  method DeckCreationFails() returns (decks: seq<string>, status: string, next: Screen)
    ensures decks == ["Default"] && status == "error creating deck: exists" && next == Notes
  {
    var app := new AppState(Some(["Default"]));
    var cmd;
    next, cmd := DeckCreateScreen.Update(app, Key("enter"), InputReply("Default", false));
    next, cmd := DeckCreateScreen.Update(app, DeckCreated("Default", Some("exists")), NoInput);
    decks, status := app.deckList, app.status;
  }

  /**
   * Enter issues the creation, esc then leaves for the notes screen before the
   * result arrives, and the notes screen drops the late result: the deck is
   * neither listed nor made active.
   */
  method LateDeckCreationIsDropped() returns (issued: Cmd, decks: seq<string>, deckName: string, next: Screen)
    ensures issued == CreateDeck("Spanish")
    ensures decks == ["Default"] && deckName == "Default" && next == Notes
  {
    var app := new AppState(Some(["Default"]));
    var cmd;
    next, issued := DeckCreateScreen.Update(app, Key("enter"), InputReply("Spanish", false));
    next, cmd := DeckCreateScreen.Update(app, Key("esc"), InputReply("Spanish", false));
    next, cmd := NotesScreen.Update(app, DeckCreated("Spanish", None));
    decks, deckName := app.deckList, app.deckName;
  }

  /** A generated note is listed with its Front and Back, unselected, under the cursor. */
  method GenerateOneNote() returns (notes: seq<NoteItem>, selected: set<int>, status: string)
    ensures |notes| == 1 && notes[0].index == 0 && notes[0].front == "Q1" && notes[0].back == "A1"
    ensures selected == {} && status == "generated"
  {
    var app := new AppState(None);
    var next, cmd := PickerScreen.Update(app, Key("enter"), Picked("lecture.pdf"));
    next, cmd := NotesScreen.Update(app, Generated([map["Front" := "Q1", "Back" := "A1"]]));
    notes, selected, status := app.notes, app.selected, app.status;
  }

  /** A session with two generated notes, both selected with the helpers behind " " and "down". */
  method TwoSelectedNotes() returns (app: AppState)
    ensures fresh(app) && app.Valid()
    ensures |app.notes| == 2 && app.selected == {0, 1} && !app.loading
  {
    app := new AppState(None);
    var handled := app.HandleAsyncMsg(Generated([map[], map[]]));
    assert |app.notes| == 2 && app.cursor == 0 && app.selected == {};
    app.ToggleCurrentNote();
    app.MoveNotesCursor(1);
    assert app.cursor == 1 && app.selected == {0};
    app.ToggleCurrentNote();
  }

  /** An Anki error is reported, loading ends, and the selection survives for a retry. */
  method AnkiErrorKeepsSelection() returns (selected: set<int>, status: string, loading: bool)
    ensures selected == {0, 1} && status == "anki error: timeout" && !loading
  {
    var app := TwoSelectedNotes();
    var next, cmd := NotesScreen.HandleKey(app, "a");
    assert app.loading && app.selected == {0, 1};
    next, cmd := NotesScreen.Update(app, AnkiResult(Some("timeout")));
    selected, status, loading := app.selected, app.status, app.loading;
  }

  /** A generation error is kept even after a later generation succeeds. */
  method ErrorOutlivesSuccess() returns (err: Option<string>, status: string)
    ensures err == Some("upload failed") && status == "generated"
  {
    var app := new AppState(None);
    var next, cmd := NotesScreen.Update(app, GenerateErr("upload failed"));
    next, cmd := NotesScreen.Update(app, Generated([]));
    err, status := app.err, app.status;
  }

  /** Nothing checks `loading`: "r" starts a second generation while the first is in flight. */
  method RegenerateWhileLoading() returns (first: Cmd, second: Cmd, loading: bool)
    ensures first == Batch([Generate("lecture.pdf", BasicModel), Widget])
    ensures second == Generate("lecture.pdf", BasicModel) && loading
  {
    var app := new AppState(None);
    var next;
    next, first := PickerScreen.Update(app, Key("enter"), Picked("lecture.pdf"));
    assert app.loading;
    next, second := NotesScreen.Update(app, Key("r"));
    loading := app.loading;
  }

  /** The current version on an empty list: " " does nothing, so "a" finds no selection. */
  method EmptyToggleThenAdd() returns (cmd: Cmd, status: string)
    ensures cmd == NoCmd && status == "no notes selected"
  {
    var app := new AppState(None);
    var next;
    next, cmd := PickerScreen.HandlePickerMsg(app, Key("enter"), Picked("lecture.pdf"));
    assert app.notes == [] && app.selected == {};
    assert NotesScreen.ActionOf(" ") == NotesScreen.ToggleOne;
    next, cmd := NotesScreen.HandleKey(app, " ");
    assert app.selected == {};
    assert NotesScreen.ActionOf("a") == NotesScreen.AddSelected;
    next, cmd := NotesScreen.HandleKey(app, "a");
    status := app.status;
  }

  /**
   * internal/ui/model.go on an empty list, through the handlers Update calls:
   * " " selects index 0 and "a" then indexes a missing note.
   */
  method MonolithEmptyToggleThenAdd() returns (cmd: Cmd)
    ensures cmd == Crash
  {
    var m := new MonolithUi.Model(None);
    cmd := m.HandlePickerMsg(Key("enter"), Picked("lecture.pdf"));
    assert m.state == MonolithUi.ViewingNotes && m.notes == [] && m.cursor == 0 && m.selected == {};
    assert NotesScreen.ActionOf(" ") == NotesScreen.ToggleOne;
    cmd := m.HandleViewingNotes(" ");
    assert m.selected == {0} && m.notes == [];
    assert NotesScreen.ActionOf("a") == NotesScreen.AddSelected;
    cmd := m.HandleViewingNotes("a");
  }

  /** ui/model.go on an empty list: the same panic. */
  method PickingEmptyToggleThenAdd() returns (cmd: Cmd)
    ensures cmd == Crash
  {
    var m := new PickingUi.Model();
    cmd := m.UpdateFilePicker(Key("enter"), Picked("lecture.pdf"));
    assert !m.picking && m.notes == [];
    assert NotesScreen.ActionOf(" ") == NotesScreen.ToggleOne;
    cmd := m.HandleKey(" ");
    assert m.selected == {0} && m.notes == [];
    assert NotesScreen.ActionOf("a") == NotesScreen.AddSelected;
    cmd := m.HandleKey("a");
  }
}
