/**
 * The review screen (internal/ui/notes/model.go): browse the generated notes,
 * select some, send them to Anki, regenerate, or go to the deck selector.
 */
module NotesScreen {
  import opened UiTypes
  import opened Selection
  import opened Shared

  /** The keys the review screen reacts to; every other key is ignored. */
  const NotesKeys: set<string> := {"q", "ctrl+c", "d", "up", "k", "down", "j", " ", "s", "a", "r"}

  /**
   * Model.Update. The spinner tick and the three completions are consumed
   * before any key; nothing looks at `loading`, so "a" and "r" start a new
   * task even while one is in flight.
   */
  method Update(app: AppState, msg: Msg) returns (next: Screen, cmd: Cmd)
    requires app.Valid()
    modifies app
    ensures StepFacts(old(app.View()), app.View(), msg, cmd)
    ensures app.Valid()
    ensures next == Notes || (next == DeckSelect && msg.Key? && ActionOf(msg.key) == ChooseDeck)
    ensures msg.Tick? ==> cmd == Widget && app.View() == old(app.View())
    ensures IsAsync(msg) ==> cmd == NoCmd && app.View() == AfterAsync(old(app.View()), msg)
    ensures msg.DeckCreated? || msg.Other? ==> cmd == NoCmd && app.View() == old(app.View())
    ensures msg.Key? ==> KeyEffect(old(app.View()), app.View(), msg.key, next, cmd)
  {
    var tickCmd, ticked := app.HandleSpinnerTick(msg);
    if ticked {
      return Notes, tickCmd;
    }
    var handled := app.HandleAsyncMsg(msg);
    if handled {
      return Notes, NoCmd;
    }
    if msg.Key? {
      next, cmd := HandleKey(app, msg.key);
    } else {
      next, cmd := Notes, NoCmd;
    }
  }

  /** The cases of the key switch of Model.Update. */
  datatype Action = QuitApp | ChooseDeck | CursorUp | CursorDown | ToggleOne | ToggleEvery
                  | AddSelected | Regenerate | Ignore

  /** Which case of the key switch a key falls into. */
  function ActionOf(k: string): (a: Action)
    ensures a == Ignore <==> k !in NotesKeys
  {
    if k == "q" || k == "ctrl+c" then QuitApp
    else if k == "d" then ChooseDeck
    else if k == "up" || k == "k" then CursorUp
    else if k == "down" || k == "j" then CursorDown
    else if k == " " then ToggleOne
    else if k == "s" then ToggleEvery
    else if k == "a" then AddSelected
    else if k == "r" then Regenerate
    else Ignore
  }

  /** What one key press does on the review screen, from session `s` to session `t`. */
  ghost predicate KeyEffect(s: Session, t: Session, k: string, next: Screen, cmd: Cmd)
  {
    match ActionOf(k)
    case QuitApp => next == Notes && cmd == Quit && t == s.(cancelled := true)
    case ChooseDeck => next == DeckSelect && cmd == Widget && t == s.(deckCursor := 0, status := "select deck")
    case CursorUp => next == Notes && cmd == NoCmd && t == AfterMove(s, -1)
    case CursorDown => next == Notes && cmd == NoCmd && t == AfterMove(s, 1)
    case ToggleOne => next == Notes && cmd == NoCmd && t == AfterToggle(s)
    case ToggleEvery => next == Notes && cmd == NoCmd && t == AfterToggleAll(s)
    case AddSelected =>
      next == Notes &&
      if s.selected == {} then cmd == NoCmd && t == s.(status := "no notes selected")
      else
        && cmd.AddNotes? && cmd.deck == s.deckName && cmd.modelName == s.noteModel
        && |cmd.notes| == |s.selected| && ListsSelection(cmd.notes, s.notes, s.selected)
        && t == s.(loading := true, status := "adding to Anki...")
    case Regenerate =>
      next == Notes &&
      if s.pdfPath == "" then cmd == NoCmd && t == s.(status := "no pdf selected")
      else cmd == Generate(s.pdfPath, s.noteModel) && t == s.(loading := true, status := "regenerating...")
    case Ignore => next == Notes && cmd == NoCmd && t == s
  }

  /** The key switch of Model.Update. */
  method HandleKey(app: AppState, k: string) returns (next: Screen, cmd: Cmd)
    requires app.Valid()
    modifies app
    ensures app.Valid()
    ensures KeyEffect(old(app.View()), app.View(), k, next, cmd)
  {
    next, cmd := Notes, NoCmd;
    match ActionOf(k)
    case QuitApp =>
      app.cancelled := true;
      cmd := Quit;
    case ChooseDeck =>
      OpenDeckSelect(app);
      next, cmd := DeckSelect, Widget;
    case CursorUp =>
      app.MoveNotesCursor(-1);
    case CursorDown =>
      app.MoveNotesCursor(1);
    case ToggleOne =>
      app.ToggleCurrentNote();
    case ToggleEvery =>
      app.ToggleAllNotes();
    case AddSelected =>
      cmd := AddSelectedNotes(app);
    case Regenerate =>
      cmd := RegenerateNotes(app);
    case Ignore =>
  }

  /** "d": the deck cursor goes back to the top. */
  method OpenDeckSelect(app: AppState)
    requires app.Valid()
    modifies app`deckCursor, app`status
    ensures app.Valid()
    ensures app.View() == old(app.View()).(deckCursor := 0, status := "select deck")
  {
    app.deckCursor := 0;
    app.status := "select deck";
  }

  /** "a": send the selected notes to the current deck, or refuse when none is selected. */
  method AddSelectedNotes(app: AppState) returns (cmd: Cmd)
    requires app.Valid()
    modifies app`loading, app`status
    ensures app.Valid()
    ensures app.selected == {} ==> cmd == NoCmd && app.View() == old(app.View()).(status := "no notes selected")
    ensures app.selected != {} ==>
      && cmd.AddNotes? && cmd.deck == app.deckName && cmd.modelName == app.noteModel
      && |cmd.notes| == |app.selected| && ListsSelection(cmd.notes, app.notes, app.selected)
      && app.View() == old(app.View()).(loading := true, status := "adding to Anki...")
  {
    var sel := app.SelectedNotes();
    if |sel| == 0 {
      app.status := "no notes selected";
      return NoCmd;
    }
    app.loading := true;
    app.status := "adding to Anki...";
    return AddNotes(app.deckName, app.noteModel, sel);
  }

  /** "r": generate the notes again from the chosen PDF, or refuse when none was chosen. */
  method RegenerateNotes(app: AppState) returns (cmd: Cmd)
    requires app.Valid()
    modifies app`loading, app`status
    ensures app.Valid()
    ensures app.pdfPath == "" ==> cmd == NoCmd && app.View() == old(app.View()).(status := "no pdf selected")
    ensures app.pdfPath != "" ==>
      cmd == Generate(app.pdfPath, app.noteModel)
      && app.View() == old(app.View()).(loading := true, status := "regenerating...")
  {
    if app.pdfPath == "" {
      app.status := "no pdf selected";
      return NoCmd;
    }
    app.loading := true;
    app.status := "regenerating...";
    return Generate(app.pdfPath, app.noteModel);
  }
}
