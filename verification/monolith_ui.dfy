/**
 * The earlier single-model version of the machine (internal/ui/model.go):
 * one Model with its own copy of the session fields and a `state` enum in
 * place of four screen models. The spinner, the file picker and the text
 * input are the same oracles as in the current version.
 */
module MonolithUi {
  import opened UiTypes
  import opened Selection
  import opened Shared
  import opened LegacyNotes
  import NotesScreen
  import DeckSelectScreen
  import DeckCreateScreen

  /** The AppState enum of this version. */
  datatype State = PickingPdf | ViewingNotes | SelectingDeck | CreatingDeck

  /** What one key press does while viewing notes, from session `s` to `t` (state `st` afterwards). */
  ghost predicate ViewingEffect(s: Session, t: Session, k: string, st: State, cmd: Cmd)
  {
    match NotesScreen.ActionOf(k)
    case QuitApp => st == ViewingNotes && cmd == Quit && t == s.(cancelled := true)
    case ChooseDeck => st == SelectingDeck && cmd == Widget && t == s.(deckCursor := 0, status := "select deck")
    case CursorUp => st == ViewingNotes && cmd == NoCmd && t == LegacyUp(s)
    case CursorDown => st == ViewingNotes && cmd == NoCmd && t == LegacyDown(s)
    case ToggleOne => st == ViewingNotes && cmd == NoCmd && t == LegacyToggle(s)
    case ToggleEvery => st == ViewingNotes && cmd == NoCmd && t == LegacyToggleAll(s)
    case AddSelected =>
      st == ViewingNotes &&
      if !Within(s.selected, |s.notes|) then cmd == Crash && t == s
      else if s.selected == {} then cmd == NoCmd && t == s.(status := "no notes selected")
      else
        && cmd.AddNotes? && cmd.deck == s.deckName && cmd.modelName == s.noteModel
        && |cmd.notes| == |s.selected| && ListsSelection(cmd.notes, s.notes, s.selected)
        && t == s.(loading := true, status := "adding to Anki...")
    case Regenerate =>
      st == ViewingNotes &&
      if s.pdfPath == "" then cmd == NoCmd && t == s.(status := "no pdf selected")
      else cmd == Generate(s.pdfPath, s.noteModel) && t == s.(loading := true, status := "regenerating...")
    case Ignore => st == ViewingNotes && cmd == NoCmd && t == s
  }

  /** What one key press does in the deck selector. */
  ghost predicate SelectingEffect(s: Session, t: Session, k: string, st: State, cmd: Cmd)
    requires LegacyInv(s)
  {
    match DeckSelectScreen.ActionOf(k)
    case Back => st == ViewingNotes && cmd == Widget && t == s.(status := "")
    case CursorUp =>
      st == SelectingDeck && cmd == NoCmd && t == s.(deckCursor := if s.deckCursor > 0 then s.deckCursor - 1 else s.deckCursor)
    case CursorDown =>
      && st == SelectingDeck && cmd == NoCmd
      && t == s.(deckCursor := if s.deckCursor < |s.deckList| then s.deckCursor + 1 else s.deckCursor)
    case Choose =>
      var entry := DeckEntry(s.deckList, s.deckCursor);
      if entry == CreateDeckEntry then
        st == CreatingDeck && cmd == Widget && t == s.(deckInput := "", inputFocused := true)
      else
        st == ViewingNotes && cmd == Widget && t == s.(deckName := entry, status := "deck changed to " + entry)
    case Ignore => st == SelectingDeck && cmd == NoCmd && t == s
  }

  /** What one key press does while a deck name is typed (`input` is the text input's answer). */
  ghost predicate CreatingEffect(s: Session, t: Session, k: string, input: InputReply, st: State, cmd: Cmd)
  {
    match DeckCreateScreen.ActionOf(k)
    case Cancel => st == ViewingNotes && cmd == Widget && t == s.(deckInput := input.value, inputFocused := false)
    case Confirm =>
      if input.value == "" then
        st == CreatingDeck && cmd == NoCmd && t == s.(deckInput := "", status := "deck name cannot be empty")
      else
        && st == CreatingDeck && cmd == CreateDeck(input.value)
        && t == s.(deckInput := input.value, status := "creating deck...", inputFocused := false)
    case Ignore =>
      st == CreatingDeck && cmd == (if input.hasCmd then Widget else NoCmd) && t == s.(deckInput := input.value)
  }

  /** What the file picker state does with a message (`reply` is the file picker's answer). */
  ghost predicate PickingEffect(s: Session, t: Session, msg: Msg, reply: PickerReply, st: State, cmd: Cmd)
  {
    if reply.hasCmd then
      st == PickingPdf && cmd == Widget && t == s
    else if msg == Key("q") || msg == Key("ctrl+c") then
      st == PickingPdf && cmd == Quit && t == s.(cancelled := true)
    else if reply.selectedFile.Some? then
      var path := reply.selectedFile.value;
      && st == ViewingNotes && cmd == Generate(path, s.noteModel)
      && t == s.(pdfPath := path, loading := true, status := "generating notes...")
    else if reply.selectedDisabled then
      st == PickingPdf && cmd == NoCmd && t == s.(status := "cannot select that file")
    else
      st == PickingPdf && cmd == NoCmd && t == s
  }

  /**
   * What Update does with a message that is not a key, from session `s` in
   * state `st0` to session `t` in state `st`. A tick, a result message and a
   * deck-creation result are handled in every state; any other message
   * reaches the file picker, and only while picking.
   */
  ghost predicate MessageEffect(s: Session, t: Session, st0: State, st: State, msg: Msg, reply: PickerReply, cmd: Cmd)
  {
    match msg
    case Tick => cmd == Widget && t == s && st == st0
    case Key(_) => false
    case DeckCreated(deck, deckErr) =>
      cmd == Widget && st == ViewingNotes && t == DeckCreateScreen.AfterDeckCreated(s, deck, deckErr)
    case Other =>
      if st0 == PickingPdf then PickingEffect(s, t, msg, reply, st, cmd)
      else cmd == NoCmd && t == s && st == st0
    case _ => cmd == NoCmd && t == AfterAsync(s, msg) && st == st0
  }

  /** The Model of internal/ui/model.go. */
  class Model {
    var pdfPath: string
    var noteModel: string
    var deckName: string
    var deckList: seq<string>
    var deckCursor: int
    var deckInput: string
    var inputFocused: bool
    var notes: seq<NoteItem>
    var selected: set<int>
    var cursor: int
    var status: string
    var err: Option<string>
    var loading: bool
    var cancelled: bool
    var state: State

    /** The session fields, as a value (the state enum is kept apart). */
    ghost function View(): Session
      reads this
    {
      Session(noteModel, pdfPath, deckName, deckList, deckCursor, deckInput, inputFocused,
              notes, selected, cursor, status, err, loading, cancelled)
    }

    ghost predicate Valid()
      reads this
    {
      LegacyInv(View())
    }

    /** NewModel: the same initial session as NewAppState, in the picking state. */
    constructor (listing: Option<seq<string>>)
      ensures Valid() && state == PickingPdf
      ensures View() == Session(BasicModel, "", InitialDeckName(ListedDecks(listing)), ListedDecks(listing), 0,
                                "", false, [], {}, 0, "", None, false, false)
    {
      var decks := ListedDecks(listing);
      pdfPath := "";
      noteModel := BasicModel;
      deckName := InitialDeckName(decks);
      deckList := decks;
      deckCursor := 0;
      deckInput := "";
      inputFocused := false;
      notes := [];
      selected := {};
      cursor := 0;
      status := "";
      err := None;
      loading := false;
      cancelled := false;
      state := PickingPdf;
    }

    /** setState: always stores the new state; entering deck creation also empties and focuses the input. */
    method SetState(newState: State) returns (cmd: Cmd)
      requires Valid()
      modifies this`state, this`deckInput, this`inputFocused
      ensures Valid() && state == newState && cmd == Widget
      ensures newState == CreatingDeck ==> View() == old(View()).(deckInput := "", inputFocused := true)
      ensures newState != CreatingDeck ==> View() == old(View())
    {
      state := newState;
      if newState == CreatingDeck {
        deckInput := "";
        inputFocused := true;
      }
      return Widget;
    }

    /** Init: enter the current state again. */
    method Init() returns (cmd: Cmd)
      requires Valid()
      modifies this`state, this`deckInput, this`inputFocused
      ensures Valid() && state == old(state) && cmd == Widget
      ensures old(state) == CreatingDeck ==> View() == old(View()).(deckInput := "", inputFocused := true)
      ensures old(state) != CreatingDeck ==> View() == old(View())
    {
      cmd := SetState(state);
    }

    /** Update: a key goes to the handler of the current state; MessageEffect says what every other message does. */
    method Update(msg: Msg, reply: PickerReply, input: InputReply) returns (cmd: Cmd)
      requires Valid()
      modifies this
      ensures Valid()
      ensures old(deckList) <= deckList
      ensures !msg.Key? ==> MessageEffect(old(View()), View(), old(state), state, msg, reply, cmd)
      ensures old(state) == PickingPdf && msg.Key? ==> PickingEffect(old(View()), View(), msg, reply, state, cmd)
      ensures old(state) == ViewingNotes && msg.Key? ==> ViewingEffect(old(View()), View(), msg.key, state, cmd)
      ensures old(state) == SelectingDeck && msg.Key? ==> SelectingEffect(old(View()), View(), msg.key, state, cmd)
      ensures old(state) == CreatingDeck && msg.Key? ==>
        CreatingEffect(old(View()), View(), msg.key, input, state, cmd)
    {
      if msg.Key? {
        cmd := HandleKey(msg.key, reply, input);
      } else {
        cmd := HandleMessage(msg, reply);
      }
    }

    /** Update on every message that is not a key. */
    method HandleMessage(msg: Msg, reply: PickerReply) returns (cmd: Cmd)
      requires Valid() && !msg.Key?
      modifies this
      ensures Valid()
      ensures MessageEffect(old(View()), View(), old(state), state, msg, reply, cmd)
    {
      match msg
      case Tick =>
        return Widget;
      case Generated(_) =>
        cmd := TakeResult(msg);
      case GenerateErr(_) =>
        cmd := TakeResult(msg);
      case AnkiResult(_) =>
        cmd := TakeResult(msg);
      case DeckCreated(deck, deckErr) =>
        cmd := TakeDeckCreated(deck, deckErr);
      case Other =>
        if state == PickingPdf {
          cmd := HandlePickerMsg(msg, reply);
        } else {
          cmd := NoCmd;
        }
    }

    /** The tea.KeyMsg case of Update: the handler of the current state takes the key. */
    method HandleKey(k: string, reply: PickerReply, input: InputReply) returns (cmd: Cmd)
      requires Valid()
      modifies this`cancelled, this`pdfPath, this`loading, this`status, this`state, this`deckCursor, this`deckName,
        this`deckInput, this`inputFocused, this`cursor, this`selected
      ensures Valid()
      ensures old(state) == PickingPdf ==> PickingEffect(old(View()), View(), Key(k), reply, state, cmd)
      ensures old(state) == ViewingNotes ==> ViewingEffect(old(View()), View(), k, state, cmd)
      ensures old(state) == SelectingDeck ==> SelectingEffect(old(View()), View(), k, state, cmd)
      ensures old(state) == CreatingDeck ==> CreatingEffect(old(View()), View(), k, input, state, cmd)
    {
      match state
      case PickingPdf =>
        cmd := HandlePickerMsg(Key(k), reply);
      case SelectingDeck =>
        cmd := HandleDeckSelection(k);
      case CreatingDeck =>
        cmd := HandleNewDeckCreation(k, input);
      case ViewingNotes =>
        cmd := HandleViewingNotes(k);
    }

    /** The generatedNotesMsg, generateErrMsg and ankiResultMsg cases of Update. */
    method TakeResult(msg: Msg) returns (cmd: Cmd)
      requires Valid() && IsAsync(msg)
      modifies this`loading, this`status, this`notes, this`selected, this`cursor, this`err
      ensures Valid() && cmd == NoCmd
      ensures View() == AfterAsync(old(View()), msg)
    {
      LegacyAsyncKeepsInv(View(), msg);
      cmd := NoCmd;
      loading := false;
      match msg
      case Generated(raws) =>
        status := "generated";
        TakeNotes(raws);
      case GenerateErr(e) =>
        err := Some(e);
        status := "generation error";
      case AnkiResult(ankiErr) =>
        if ankiErr.Some? {
          status := "anki error: " + ankiErr.value;
        } else {
          status := "added to anki";
        }
    }

    /** The note list of a generatedNotesMsg: fresh items, no selection, cursor at the top. */
    method TakeNotes(raws: seq<Fields>)
      requires Valid()
      modifies this`notes, this`selected, this`cursor
      ensures Valid() && View() == AfterReset(old(View()), raws)
    {
      LegacyAsyncKeepsInv(View(), Generated(raws));
      notes := NotesToItems(raws);
      selected := {};
      cursor := 0;
    }

    /** The deckCreatedMsg case of Update: record the result, then back to the notes whatever the state. */
    method TakeDeckCreated(deck: string, deckErr: Option<string>) returns (cmd: Cmd)
      requires Valid()
      modifies this`deckName, this`deckList, this`status, this`state, this`deckInput, this`inputFocused
      ensures Valid() && cmd == Widget && state == ViewingNotes
      ensures View() == DeckCreateScreen.AfterDeckCreated(old(View()), deck, deckErr)
    {
      if deckErr.Some? {
        status := "error creating deck: " + deckErr.value;
      } else {
        deckName := deck;
        deckList := deckList + [deck];
        status := "deck created";
      }
      cmd := SetState(ViewingNotes);
    }

    /** handleViewingNotes. */
    method HandleViewingNotes(k: string) returns (cmd: Cmd)
      requires Valid() && state == ViewingNotes
      modifies this`cancelled, this`deckCursor, this`status, this`state, this`cursor, this`selected, this`loading,
        this`deckInput, this`inputFocused
      ensures Valid()
      ensures ViewingEffect(old(View()), View(), k, state, cmd)
    {
      cmd := NoCmd;
      match NotesScreen.ActionOf(k)
      case QuitApp =>
        cancelled := true;
        cmd := Quit;
      case ChooseDeck =>
        cmd := OpenDeckSelect();
      case CursorUp =>
        StepUp();
      case CursorDown =>
        StepDown();
      case ToggleOne =>
        ToggleUnderCursor();
      case ToggleEvery =>
        ToggleEvery();
      case AddSelected =>
        cmd := AddSelectedNotes();
      case Regenerate =>
        cmd := Regenerate();
      case Ignore =>
    }

    /** The "d" case: the deck cursor goes back to the top. */
    method OpenDeckSelect() returns (cmd: Cmd)
      requires Valid()
      modifies this`deckCursor, this`status, this`state, this`deckInput, this`inputFocused
      ensures Valid() && cmd == Widget && state == SelectingDeck
      ensures View() == old(View()).(deckCursor := 0, status := "select deck")
    {
      deckCursor := 0;
      status := "select deck";
      cmd := SetState(SelectingDeck);
    }

    /** The "up"/"k" case. */
    method StepUp()
      requires Valid()
      modifies this`cursor
      ensures Valid() && View() == LegacyUp(old(View()))
    {
      LegacyStepsKeepInv(View());
      if cursor > 0 {
        cursor := cursor - 1;
      }
    }

    /** The "down"/"j" case. */
    method StepDown()
      requires Valid()
      modifies this`cursor
      ensures Valid() && View() == LegacyDown(old(View()))
    {
      LegacyStepsKeepInv(View());
      if cursor < |notes| - 1 {
        cursor := cursor + 1;
      }
    }

    /** The " " case: no check that a note is under the cursor. */
    method ToggleUnderCursor()
      requires Valid()
      modifies this`selected
      ensures Valid() && View() == LegacyToggle(old(View()))
    {
      LegacyStepsKeepInv(View());
      if cursor in selected {
        selected := selected - {cursor};
      } else {
        selected := selected + {cursor};
      }
    }

    /** The "s" case. */
    method ToggleEvery()
      requires Valid()
      modifies this`selected
      ensures Valid() && View() == LegacyToggleAll(old(View()))
    {
      LegacyStepsKeepInv(View());
      if |selected| == |notes| {
        selected := {};
      } else {
        selected := SelectEvery(selected, |notes|);
      }
    }

    /** The "r" case. */
    method Regenerate() returns (cmd: Cmd)
      requires Valid()
      modifies this`loading, this`status
      ensures Valid()
      ensures pdfPath == "" ==> cmd == NoCmd && View() == old(View()).(status := "no pdf selected")
      ensures pdfPath != "" ==>
        cmd == Generate(pdfPath, noteModel) && View() == old(View()).(loading := true, status := "regenerating...")
    {
      if pdfPath == "" {
        status := "no pdf selected";
        return NoCmd;
      }
      loading := true;
      status := "regenerating...";
      return Generate(pdfPath, noteModel);
    }

    /** The "a" case: getSelectedNotes indexes `notes` by every selected index, which panics on a missing note. */
    method AddSelectedNotes() returns (cmd: Cmd)
      requires Valid()
      modifies this`loading, this`status
      ensures Valid()
      ensures !Within(selected, |notes|) ==> cmd == Crash && View() == old(View())
      ensures Within(selected, |notes|) && selected == {} ==>
        cmd == NoCmd && View() == old(View()).(status := "no notes selected")
      ensures Within(selected, |notes|) && selected != {} ==>
        && cmd.AddNotes? && cmd.deck == deckName && cmd.modelName == noteModel
        && |cmd.notes| == |selected| && ListsSelection(cmd.notes, notes, selected)
        && View() == old(View()).(loading := true, status := "adding to Anki...")
    {
      var ok, sel, order := CollectRaws(notes, selected);
      if !ok {
        return Crash;
      }
      if |sel| == 0 {
        status := "no notes selected";
        return NoCmd;
      }
      loading := true;
      status := "adding to Anki...";
      return AddNotes(deckName, noteModel, sel);
    }

    /** handlePickerMsg: unlike the current picker it sets the state directly and issues the task alone. */
    method HandlePickerMsg(msg: Msg, reply: PickerReply) returns (cmd: Cmd)
      requires Valid() && state == PickingPdf
      modifies this`cancelled, this`pdfPath, this`loading, this`status, this`state
      ensures Valid()
      ensures PickingEffect(old(View()), View(), msg, reply, state, cmd)
    {
      if reply.hasCmd {
        return Widget;
      }
      if msg == Key("q") || msg == Key("ctrl+c") {
        cancelled := true;
        return Quit;
      }
      if reply.selectedFile.Some? {
        pdfPath := reply.selectedFile.value;
        loading := true;
        status := "generating notes...";
        state := ViewingNotes;
        return Generate(pdfPath, noteModel);
      }
      if reply.selectedDisabled {
        status := "cannot select that file";
      }
      return NoCmd;
    }

    /** handleDeckSelection, over getVisibleDecks. */
    method HandleDeckSelection(k: string) returns (cmd: Cmd)
      requires Valid() && state == SelectingDeck
      modifies this`status, this`state, this`deckCursor, this`deckName, this`deckInput, this`inputFocused
      ensures Valid()
      ensures SelectingEffect(old(View()), View(), k, state, cmd)
    {
      var decks := VisibleDecks(deckList);
      cmd := NoCmd;
      match DeckSelectScreen.ActionOf(k)
      case Back =>
        status := "";
        cmd := SetState(ViewingNotes);
      case CursorUp =>
        if deckCursor > 0 {
          deckCursor := deckCursor - 1;
        }
      case CursorDown =>
        if deckCursor < |decks| - 1 {
          deckCursor := deckCursor + 1;
        }
      case Choose =>
        cmd := ChooseEntry(decks);
      case Ignore =>
    }

    /** The "enter" case of handleDeckSelection: compare the entry's text with "+ Create new deck". */
    method ChooseEntry(decks: seq<string>) returns (cmd: Cmd)
      requires Valid()
      requires |decks| == |deckList| + 1
      requires forall i :: 0 <= i < |decks| ==> decks[i] == DeckEntry(deckList, i)
      modifies this`status, this`state, this`deckName, this`deckInput, this`inputFocused
      ensures Valid() && cmd == Widget
      ensures var entry := DeckEntry(old(deckList), old(deckCursor));
        if entry == CreateDeckEntry then
          state == CreatingDeck && View() == old(View()).(deckInput := "", inputFocused := true)
        else
          state == ViewingNotes && View() == old(View()).(deckName := entry, status := "deck changed to " + entry)
    {
      var entry := decks[deckCursor];
      if entry == CreateDeckEntry {
        cmd := SetState(CreatingDeck);
      } else {
        deckName := entry;
        status := "deck changed to " + entry;
        cmd := SetState(ViewingNotes);
      }
    }

    /** handleNewDeckCreation: the text input takes the key first, then esc and enter. */
    method HandleNewDeckCreation(k: string, input: InputReply) returns (cmd: Cmd)
      requires Valid() && state == CreatingDeck
      modifies this`deckInput, this`inputFocused, this`status, this`state
      ensures Valid()
      ensures CreatingEffect(old(View()), View(), k, input, state, cmd)
    {
      deckInput := input.value;
      match DeckCreateScreen.ActionOf(k)
      case Cancel =>
        inputFocused := false;
        cmd := SetState(ViewingNotes);
      case Confirm =>
        cmd := ConfirmDeckName();
      case Ignore =>
        return if input.hasCmd then Widget else NoCmd;
    }

    /** The "enter" case of handleNewDeckCreation: an empty name is refused, any other starts the creation. */
    method ConfirmDeckName() returns (cmd: Cmd)
      requires Valid()
      modifies this`status, this`inputFocused
      ensures Valid()
      ensures deckInput == "" ==> cmd == NoCmd && View() == old(View()).(status := "deck name cannot be empty")
      ensures deckInput != "" ==>
        cmd == CreateDeck(deckInput) && View() == old(View()).(status := "creating deck...", inputFocused := false)
    {
      var name := deckInput;
      if name == "" {
        status := "deck name cannot be empty";
        return NoCmd;
      }
      status := "creating deck...";
      inputFocused := false;
      return CreateDeck(name);
    }
  }
}
