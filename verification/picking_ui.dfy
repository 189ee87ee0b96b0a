/**
 * The first version of the terminal UI (ui/model.go): a single Model with a
 * `picking` flag in place of screens and no deck screens. The active deck is
 * fixed to "Default" and notes are added with a separate `modelName`.
 */
module PickingUi {
  import opened UiTypes
  import opened Selection
  import opened Shared
  import opened LegacyNotes
  import NotesScreen

  /** What one key press does on the note list, from session `s` to `t`; there is no deck key. */
  ghost predicate KeyEffect(s: Session, t: Session, k: string, modelName: string, cmd: Cmd)
  {
    match NotesScreen.ActionOf(k)
    case QuitApp => cmd == Quit && t == s.(cancelled := true)
    case CursorUp => cmd == NoCmd && t == LegacyUp(s)
    case CursorDown => cmd == NoCmd && t == LegacyDown(s)
    case ToggleOne => cmd == NoCmd && t == LegacyToggle(s)
    case ToggleEvery => cmd == NoCmd && t == LegacyToggleAll(s)
    case AddSelected =>
      if !Within(s.selected, |s.notes|) then cmd == Crash && t == s
      else if s.selected == {} then cmd == NoCmd && t == s.(status := "no notes selected")
      else
        && cmd.AddNotes? && cmd.deck == s.deckName && cmd.modelName == modelName
        && |cmd.notes| == |s.selected| && ListsSelection(cmd.notes, s.notes, s.selected)
        && t == s.(loading := true, status := "adding to Anki...")
    case Regenerate =>
      if s.pdfPath == "" then cmd == NoCmd && t == s.(status := "no pdf selected")
      else cmd == Generate(s.pdfPath, s.noteModel) && t == s.(loading := true, status := "regenerating...")
    case _ => cmd == NoCmd && t == s
  }

  /**
   * What updateFilePicker does while picking, from session `s` to `t`
   * (`picking` afterwards): every message is consumed here.
   */
  ghost predicate FilePickerEffect(s: Session, t: Session, msg: Msg, reply: PickerReply, picking: bool, cmd: Cmd)
  {
    if reply.hasCmd then
      picking && cmd == Widget && t == s
    else if msg == Key("q") || msg == Key("ctrl+c") then
      picking && cmd == Quit && t == s.(cancelled := true)
    else if reply.selectedFile.Some? then
      var path := reply.selectedFile.value;
      && !picking && cmd == Generate(path, s.noteModel)
      && t == s.(pdfPath := path, loading := true, status := "generating notes...")
    else if reply.selectedDisabled then
      picking && cmd == NoCmd && t == s.(status := "cannot select that file")
    else
      picking && cmd == NoCmd && t == s
  }

  /** The Model of ui/model.go. */
  class Model {
    var pdfPath: string
    var picking: bool
    var noteModel: string
    var deckName: string
    var modelName: string
    var notes: seq<NoteItem>
    var selected: set<int>
    var cursor: int
    var status: string
    var err: Option<string>
    var loading: bool
    var cancelled: bool

    /** The session fields, as a value; this version has no deck list, deck cursor or deck-name input. */
    ghost function View(): Session
      reads this
    {
      Session(noteModel, pdfPath, deckName, [], 0, "", false,
              notes, selected, cursor, status, err, loading, cancelled)
    }

    /** LegacyInv, and no note exists while a file is being picked. */
    ghost predicate Valid()
      reads this
    {
      && LegacyInv(View())
      && (picking ==> notes == [] && selected == {})
    }

    /** NewModel: picking, deck "Default", note model and model name "Basic". */
    constructor ()
      ensures Valid() && picking && modelName == BasicModel
      ensures View() == Session(BasicModel, "", DefaultDeck, [], 0, "", false, [], {}, 0, "", None, false, false)
    {
      pdfPath := "";
      picking := true;
      noteModel := BasicModel;
      deckName := DefaultDeck;
      modelName := BasicModel;
      notes := [];
      selected := {};
      cursor := 0;
      status := "";
      err := None;
      loading := false;
      cancelled := false;
    }

    /** Init: when a PDF is already chosen and nothing is being picked, generation starts at once. */
    method Init() returns (cmd: Cmd)
      requires Valid()
      modifies this`loading
      ensures Valid()
      ensures !picking && pdfPath != "" ==>
        cmd == Batch([Widget, Generate(pdfPath, noteModel)]) && View() == old(View()).(loading := true)
      ensures picking || pdfPath == "" ==> cmd == Widget && View() == old(View())
    {
      if picking {
        return Widget;
      }
      if pdfPath != "" {
        loading := true;
        return Batch([Widget, Generate(pdfPath, noteModel)]);
      }
      return Widget;
    }

    /**
     * Update: the spinner tick first; then, while picking, the file picker
     * takes every message, result messages included; after that the keys and
     * the result messages. DeckCreated does not exist in this version and is
     * like any other message.
     */
    method Update(msg: Msg, reply: PickerReply) returns (cmd: Cmd)
      requires Valid()
      modifies this
      ensures Valid() && modelName == old(modelName)
      ensures old(picking) ==> notes == old(notes) && selected == old(selected)
      ensures msg.Tick? ==> cmd == Widget && View() == old(View()) && picking == old(picking)
      ensures !msg.Tick? && old(picking) ==> FilePickerEffect(old(View()), View(), msg, reply, picking, cmd)
      ensures !old(picking) ==> !picking
      ensures !old(picking) && msg.Key? ==> KeyEffect(old(View()), View(), msg.key, modelName, cmd)
      ensures !old(picking) && IsAsync(msg) ==> cmd == NoCmd && View() == AfterAsync(old(View()), msg)
      ensures !old(picking) && (msg.DeckCreated? || msg.Other?) ==> cmd == NoCmd && View() == old(View())
    {
      if msg.Tick? {
        return Widget;
      }
      if picking {
        cmd := UpdateFilePicker(msg, reply);
        return;
      }
      match msg
      case Key(k) =>
        cmd := HandleKey(k);
      case Generated(_) =>
        cmd := TakeResult(msg);
      case GenerateErr(_) =>
        cmd := TakeResult(msg);
      case AnkiResult(_) =>
        cmd := TakeResult(msg);
      case _ =>
        cmd := NoCmd;
    }

    /** updateFilePicker while picking: the widget's own command, quit, a chosen or refused file. */
    method UpdateFilePicker(msg: Msg, reply: PickerReply) returns (cmd: Cmd)
      requires Valid() && picking
      modifies this`cancelled, this`pdfPath, this`picking, this`loading, this`status
      ensures Valid()
      ensures FilePickerEffect(old(View()), View(), msg, reply, picking, cmd)
    {
      if reply.hasCmd {
        return Widget;
      }
      if msg == Key("q") || msg == Key("ctrl+c") {
        cancelled := true;
        return Quit;
      }
      if reply.selectedFile.Some? {
        pdfPath := reply.selectedFile.value;
        picking := false;
        loading := true;
        status := "generating notes...";
        return Generate(pdfPath, noteModel);
      }
      if reply.selectedDisabled {
        status := "cannot select that file";
      }
      return NoCmd;
    }

    /** The result-message cases of Update, once the file is picked. */
    method TakeResult(msg: Msg) returns (cmd: Cmd)
      requires Valid() && IsAsync(msg) && !picking
      modifies this`loading, this`status, this`notes, this`selected, this`cursor, this`err
      ensures Valid() && cmd == NoCmd
      ensures View() == AfterAsync(old(View()), msg)
    {
      LegacyAsyncKeepsInv(View(), msg);
      cmd := NoCmd;
      loading := false;
      match msg
      case Generated(raws) =>
        status := "generated";
        TakeNotes(raws);
      case GenerateErr(e) =>
        err := Some(e);
        status := "generation error";
      case AnkiResult(ankiErr) =>
        if ankiErr.Some? {
          status := "anki error: " + ankiErr.value;
        } else {
          status := "added to anki";
        }
    }

    /** The note list of a generatedNotesMsg: fresh items, no selection, cursor at the top. */
    method TakeNotes(raws: seq<Fields>)
      requires Valid() && !picking
      modifies this`notes, this`selected, this`cursor
      ensures Valid() && View() == AfterReset(old(View()), raws)
    {
      LegacyAsyncKeepsInv(View(), Generated(raws));
      notes := NotesToItems(raws);
      selected := {};
      cursor := 0;
    }

    /** The key switch of Update. */
    method HandleKey(k: string) returns (cmd: Cmd)
      requires Valid() && !picking
      modifies this`cancelled, this`cursor, this`selected, this`loading, this`status
      ensures Valid()
      ensures KeyEffect(old(View()), View(), k, modelName, cmd)
    {
      cmd := NoCmd;
      match NotesScreen.ActionOf(k)
      case QuitApp =>
        cancelled := true;
        cmd := Quit;
      case CursorUp =>
        StepUp();
      case CursorDown =>
        StepDown();
      case ToggleOne =>
        ToggleUnderCursor();
      case ToggleEvery =>
        ToggleEvery();
      case AddSelected =>
        cmd := AddSelectedNotes();
      case Regenerate =>
        cmd := Regenerate();
      case _ =>
    }

    /** The "up"/"k" case. */
    method StepUp()
      requires Valid() && !picking
      modifies this`cursor
      ensures Valid() && View() == LegacyUp(old(View()))
    {
      LegacyStepsKeepInv(View());
      if cursor > 0 {
        cursor := cursor - 1;
      }
    }

    /** The "down"/"j" case. */
    method StepDown()
      requires Valid() && !picking
      modifies this`cursor
      ensures Valid() && View() == LegacyDown(old(View()))
    {
      LegacyStepsKeepInv(View());
      if cursor < |notes| - 1 {
        cursor := cursor + 1;
      }
    }

    /** The " " case: no check that a note is under the cursor. */
    method ToggleUnderCursor()
      requires Valid() && !picking
      modifies this`selected
      ensures Valid() && View() == LegacyToggle(old(View()))
    {
      LegacyStepsKeepInv(View());
      if cursor in selected {
        selected := selected - {cursor};
      } else {
        selected := selected + {cursor};
      }
    }

    /** The "s" case. */
    method ToggleEvery()
      requires Valid() && !picking
      modifies this`selected
      ensures Valid() && View() == LegacyToggleAll(old(View()))
    {
      LegacyStepsKeepInv(View());
      if |selected| == |notes| {
        selected := {};
      } else {
        selected := SelectEvery(selected, |notes|);
      }
    }

    /** The "a" case: getSelectedNotes panics on a selected index with no note. */
    method AddSelectedNotes() returns (cmd: Cmd)
      requires Valid()
      modifies this`loading, this`status
      ensures Valid()
      ensures !Within(selected, |notes|) ==> cmd == Crash && View() == old(View())
      ensures Within(selected, |notes|) && selected == {} ==>
        cmd == NoCmd && View() == old(View()).(status := "no notes selected")
      ensures Within(selected, |notes|) && selected != {} ==>
        && cmd.AddNotes? && cmd.deck == deckName && cmd.modelName == modelName
        && |cmd.notes| == |selected| && ListsSelection(cmd.notes, notes, selected)
        && View() == old(View()).(loading := true, status := "adding to Anki...")
    {
      var ok, sel, order := CollectRaws(notes, selected);
      if !ok {
        return Crash;
      }
      if |sel| == 0 {
        status := "no notes selected";
        return NoCmd;
      }
      loading := true;
      status := "adding to Anki...";
      return AddNotes(deckName, modelName, sel);
    }

    /** The "r" case. */
    method Regenerate() returns (cmd: Cmd)
      requires Valid()
      modifies this`loading, this`status
      ensures Valid()
      ensures pdfPath == "" ==> cmd == NoCmd && View() == old(View()).(status := "no pdf selected")
      ensures pdfPath != "" ==>
        cmd == Generate(pdfPath, noteModel) && View() == old(View()).(loading := true, status := "regenerating...")
    {
      if pdfPath == "" {
        status := "no pdf selected";
        return NoCmd;
      }
      loading := true;
      status := "regenerating...";
      return Generate(pdfPath, noteModel);
    }
  }
}
