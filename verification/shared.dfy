/**
 * The session state shared by the four screens (internal/ui/shared/state.go)
 * and the list helpers that act on it (internal/ui/shared/helpers.go).
 *
 * AppState keeps the source's fields; the context, the spinner, the file
 * picker widget, the terminal size and the service clients are not modelled
 * (Cancel becomes the flag `cancelled`, the text input its value and a focus
 * flag). View() is the whole modelled state as one value, so a handler can
 * say exactly what it changes: `View() == old(View()).(status := ...)`.
 */
module Shared {
  import opened UiTypes
  import opened Selection

  /** The modelled fields of AppState, as a value. */
  datatype Session = Session(
    noteModel: string,
    pdfPath: string,
    deckName: string,
    deckList: seq<string>,
    deckCursor: int,
    deckInput: string,
    inputFocused: bool,
    notes: seq<NoteItem>,
    selected: set<int>,
    cursor: int,
    status: string,
    err: Option<string>,
    loading: bool,
    cancelled: bool)

  /** The note item built for the i-th raw field map. */
  function ItemFor(i: int, raw: Fields): NoteItem
  {
    NoteItem(i, Field(raw, "Front"), Field(raw, "Back"), raw)
  }

  /** The note list built from the raw field maps, one item per map, in order. */
  function ItemsOf(raws: seq<Fields>): seq<NoteItem>
  {
    seq(|raws|, i requires 0 <= i < |raws| => ItemFor(i, raws[i]))
  }

  /** Each note sits at the position its index names. */
  ghost predicate Indexed(notes: seq<NoteItem>)
  {
    forall i :: 0 <= i < |notes| ==> notes[i].index == i
  }

  /**
   * The invariant every handler keeps: the selection addresses existing
   * notes, the cursor is on a note (0 on an empty list), each note carries its
   * own position, and the deck cursor is on an entry of the deck selector.
   */
  ghost predicate Inv(s: Session)
  {
    && Within(s.selected, |s.notes|)
    && (if s.notes == [] then s.cursor == 0 else 0 <= s.cursor < |s.notes|)
    && Indexed(s.notes)
    && 0 <= s.deckCursor <= |s.deckList|
  }

  /** The entry at position i of the deck selector: the synthetic entry, then the decks. */
  function DeckEntry(deckList: seq<string>, i: int): string
    requires 0 <= i <= |deckList|
  {
    if i == 0 then CreateDeckEntry else deckList[i - 1]
  }

  /** The deck list at start-up: the listed names, or none when listing failed. */
  function ListedDecks(listing: Option<seq<string>>): seq<string>
  {
    match listing
    case None => []
    case Some(names) => names
  }

  /** The active deck at start-up: the first listed deck, or "Default" when none is listed. */
  function InitialDeckName(decks: seq<string>): string
  {
    if |decks| > 0 then decks[0] else DefaultDeck
  }

  // ---------------------------------------------------------------------
  // Specifications of the helpers, on the session value.

  /** ResetNotes: a fresh note list from the raw maps, no selection, cursor at the top. */
  function AfterReset(s: Session, raws: seq<Fields>): Session
  {
    s.(notes := ItemsOf(raws), selected := {}, cursor := 0)
  }

  /** MoveNotesCursor: nothing on an empty list, otherwise the clamped move. */
  function AfterMove(s: Session, delta: int): Session
  {
    if s.notes == [] then s else s.(cursor := ClampCursor(s.cursor, delta, |s.notes|))
  }

  /** ToggleCurrentNote: nothing on an empty list, otherwise flip the note under the cursor. */
  function AfterToggle(s: Session): Session
  {
    if s.notes == [] then s else s.(selected := Toggled(s.selected, s.cursor))
  }

  /** ToggleAllNotes: nothing on an empty list, otherwise "select all". */
  function AfterToggleAll(s: Session): Session
  {
    if s.notes == [] then s else s.(selected := ToggledAll(s.selected, |s.notes|))
  }

  /** The completions HandleAsyncMsg consumes. DeckCreatedMsg is not one of them. */
  predicate IsAsync(msg: Msg)
  {
    msg.Generated? || msg.GenerateErr? || msg.AnkiResult?
  }

  /** HandleAsyncMsg on one of the three completions. */
  function AfterAsync(s: Session, msg: Msg): Session
    requires IsAsync(msg)
  {
    match msg
    case Generated(raws) => AfterReset(s.(loading := false, status := "generated"), raws)
    case GenerateErr(e) => s.(loading := false, err := Some(e), status := "generation error")
    case AnkiResult(ankiErr) =>
      s.(loading := false,
         status := if ankiErr.Some? then "anki error: " + ankiErr.value else "added to anki")
  }

  /**
   * What every screen's Update keeps, whatever the message: the deck list only
   * grows, the note model never changes, the error is set by a generation
   * error and by nothing else, the session is cancelled exactly when a handler
   * quits, and `loading` is raised only together with a background task.
   */
  ghost predicate StepFacts(s: Session, t: Session, msg: Msg, cmd: Cmd)
  {
    && s.deckList <= t.deckList
    && t.noteModel == s.noteModel
    && t.err == (if msg.GenerateErr? then Some(msg.error) else s.err)
    && (t.cancelled <==> s.cancelled || cmd == Quit)
    && (t.loading && !s.loading ==> StartsTask(cmd))
  }

  // ---------------------------------------------------------------------
  // What the specifications promise.

  /** ResetNotes lists one item per raw map, at its own position, with its Front/Back and the map itself. */
  lemma ResetListsEveryRaw(s: Session, raws: seq<Fields>)
    ensures var t := AfterReset(s, raws);
      && |t.notes| == |raws|
      && (forall i :: 0 <= i < |raws| ==>
            t.notes[i].index == i && t.notes[i].raw == raws[i]
            && t.notes[i].front == Field(raws[i], "Front") && t.notes[i].back == Field(raws[i], "Back"))
      && t.selected == {} && t.cursor == 0
      && t.(notes := s.notes, selected := s.selected, cursor := s.cursor) == s
  {
  }

  /** Each helper keeps the invariant. */
  lemma HelpersKeepInv(s: Session, raws: seq<Fields>, delta: int)
    requires Inv(s)
    ensures Inv(AfterReset(s, raws))
    ensures Inv(AfterMove(s, delta))
    ensures Inv(AfterToggle(s))
    ensures Inv(AfterToggleAll(s))
  {
    if s.notes != [] {
      ToggledWithin(s.selected, s.cursor, |s.notes|);
      ToggledAllWithin(s.selected, |s.notes|);
    }
  }

  /** Toggling the current note twice restores the session. */
  lemma ToggleTwiceRestores(s: Session)
    ensures AfterToggle(AfterToggle(s)) == s
  {
    if s.notes != [] {
      ToggledTwice(s.selected, s.cursor);
    }
  }

  /** Any completion keeps the invariant; it changes the deck catalogue and the input never. */
  lemma AsyncKeepsInv(s: Session, msg: Msg)
    requires Inv(s) && IsAsync(msg)
    ensures Inv(AfterAsync(s, msg))
    ensures var t := AfterAsync(s, msg);
      t.deckList == s.deckList && t.deckName == s.deckName && t.deckCursor == s.deckCursor
      && t.pdfPath == s.pdfPath && t.deckInput == s.deckInput && !t.loading
  {
    if msg.Generated? {
      HelpersKeepInv(s.(loading := false, status := "generated"), msg.raws, 0);
    }
  }

  /**
   * The error field is only ever set: a generation error stores its text, the
   * other completions (a successful generation included) leave it as it was.
   */
  lemma AsyncErrIsSticky(s: Session, msg: Msg)
    requires IsAsync(msg)
    ensures msg.GenerateErr? ==> AfterAsync(s, msg).err == Some(msg.error)
    ensures !msg.GenerateErr? ==> AfterAsync(s, msg).err == s.err
    ensures s.err.Some? ==> AfterAsync(s, msg).err.Some?
  {
  }

  /** An Anki result never touches the notes or the selection; a generated list always clears the selection. */
  lemma AsyncSelection(s: Session, msg: Msg)
    requires IsAsync(msg)
    ensures msg.AnkiResult? || msg.GenerateErr? ==>
      AfterAsync(s, msg).selected == s.selected && AfterAsync(s, msg).notes == s.notes
    ensures msg.Generated? ==> AfterAsync(s, msg).selected == {} && AfterAsync(s, msg).cursor == 0
  {
  }

  // ---------------------------------------------------------------------
  // The helpers that only build fresh slices.

  /** notesToItems: one item per raw map, in order. */
  method NotesToItems(raws: seq<Fields>) returns (items: seq<NoteItem>)
    ensures items == ItemsOf(raws)
  {
    items := [];
    for i := 0 to |raws|
      invariant items == ItemsOf(raws[..i])
    {
      items := items + [ItemFor(i, raws[i])];
      assert raws[..i + 1] == raws[..i] + [raws[i]];
    }
    assert raws[..|raws|] == raws;
  }

  /** VisibleDecks: the synthetic "+ Create new deck" entry, then every deck in order. */
  method VisibleDecks(deckList: seq<string>) returns (decks: seq<string>)
    ensures |decks| == |deckList| + 1
    ensures decks[0] == CreateDeckEntry && decks[1..] == deckList
    ensures forall i :: 0 <= i < |decks| ==> decks[i] == DeckEntry(deckList, i)
  {
    decks := [CreateDeckEntry];
    for i := 0 to |deckList|
      invariant |decks| == i + 1
      invariant decks[0] == CreateDeckEntry && decks[1..] == deckList[..i]
    {
      decks := decks + [deckList[i]];
    }
  }

  /** `order` lists every index of `sel` exactly once. */
  ghost predicate Enumerates(order: seq<int>, sel: set<int>)
  {
    && |order| == |sel|
    && (forall k :: 0 <= k < |order| ==> order[k] in sel)
    && (forall i :: i in sel ==> i in order)
    && (forall k, l :: 0 <= k < l < |order| ==> order[k] != order[l])
  }

  /** The raw maps of the notes at the given positions, in that order. */
  function RawsAt(notes: seq<NoteItem>, order: seq<int>): seq<Fields>
    requires forall k :: 0 <= k < |order| ==> 0 <= order[k] < |notes|
  {
    seq(|order|, k requires 0 <= k < |order| => notes[order[k]].raw)
  }

  /** `raws` holds the raw map of every selected note once, in some order. */
  ghost predicate ListsSelection(raws: seq<Fields>, notes: seq<NoteItem>, sel: set<int>)
  {
    exists order :: Enumerates(order, sel) && Within(sel, |notes|) && raws == RawsAt(notes, order)
  }

  /**
   * The loop of SelectedNotes/getSelectedNotes: range over the selection in
   * the map's unspecified order and collect each selected note's raw map.
   * Indexing a missing note panics; `ok` is false exactly when some selected
   * index lies outside the list, which the loop reaches whatever the order.
   */
  method CollectRaws(notes: seq<NoteItem>, sel: set<int>) returns (ok: bool, raws: seq<Fields>, ghost order: seq<int>)
    ensures ok <==> Within(sel, |notes|)
    ensures ok ==> Enumerates(order, sel) && raws == RawsAt(notes, order)
  {
    raws, order := [], [];
    var rest := sel;
    while rest != {}
      invariant rest <= sel
      invariant |order| + |rest| == |sel|
      invariant forall k :: 0 <= k < |order| ==> order[k] in sel && order[k] !in rest && 0 <= order[k] < |notes|
      invariant forall i :: i in sel ==> i in rest || i in order
      invariant forall k, l :: 0 <= k < l < |order| ==> order[k] != order[l]
      invariant raws == RawsAt(notes, order)
      decreases |rest|
    {
      assert exists j :: j in rest by {
        if forall j :: j !in rest {
          assert false;
        }
      }
      var i :| i in rest;
      if !(0 <= i < |notes|) {
        return false, raws, order;
      }
      raws, order := raws + [notes[i].raw], order + [i];
      rest := rest - {i};
    }
    ok := true;
  }

  /** The select-all loop `for i := range notes { selected[i] = true }`. */
  method SelectEvery(sel: set<int>, n: nat) returns (r: set<int>)
    ensures r == sel + Upto(n)
  {
    r := sel;
    for i := 0 to n
      invariant r == sel + Upto(i)
    {
      r := r + {i};
    }
  }

  // ---------------------------------------------------------------------

  /** AppState: the mutable session shared by every screen. */
  class AppState {
    var noteModel: string
    var pdfPath: string
    var deckName: string
    var deckList: seq<string>
    var deckCursor: int
    var deckInput: string
    var inputFocused: bool
    var notes: seq<NoteItem>
    var selected: set<int>
    var cursor: int
    var status: string
    var err: Option<string>
    var loading: bool
    var cancelled: bool

    ghost function View(): Session
      reads this
    {
      Session(noteModel, pdfPath, deckName, deckList, deckCursor, deckInput, inputFocused,
              notes, selected, cursor, status, err, loading, cancelled)
    }

    ghost predicate Valid()
      reads this
    {
      Inv(View())
    }

    /**
     * NewAppState. `listing` is what ListDeckNames returned (None: it failed,
     * and the error is discarded).
     */
    constructor (listing: Option<seq<string>>)
      ensures Valid()
      ensures View() == Session(BasicModel, "", InitialDeckName(ListedDecks(listing)), ListedDecks(listing), 0,
                                "", false, [], {}, 0, "", None, false, false)
    {
      var decks := ListedDecks(listing);
      noteModel := BasicModel;
      pdfPath := "";
      deckName := InitialDeckName(decks);
      deckList := decks;
      deckCursor := 0;
      deckInput := "";
      inputFocused := false;
      notes := [];
      selected := {};
      cursor := 0;
      status := "";
      err := None;
      loading := false;
      cancelled := false;
    }

    /** ResetNotes replaces the note list and clears the selection. */
    method ResetNotes(raws: seq<Fields>)
      requires Valid()
      modifies this`notes, this`selected, this`cursor
      ensures Valid()
      ensures View() == AfterReset(old(View()), raws)
    {
      HelpersKeepInv(View(), raws, 0);
      notes := NotesToItems(raws);
      selected := {};
      cursor := 0;
    }

    /** MoveNotesCursor moves the cursor within the notes list. */
    method MoveNotesCursor(delta: int)
      requires Valid()
      modifies this`cursor
      ensures Valid()
      ensures View() == AfterMove(old(View()), delta)
    {
      HelpersKeepInv(View(), [], delta);
      if |notes| == 0 {
        return;
      }
      var next := cursor + delta;
      if next < 0 {
        next := 0;
      }
      if next > |notes| - 1 {
        next := |notes| - 1;
      }
      cursor := next;
    }

    /** ToggleCurrentNote flips the selection of the note under the cursor. */
    method ToggleCurrentNote()
      requires Valid()
      modifies this`selected
      ensures Valid()
      ensures View() == AfterToggle(old(View()))
    {
      HelpersKeepInv(View(), [], 0);
      if |notes| == 0 {
        return;
      }
      if cursor in selected {
        selected := selected - {cursor};
        return;
      }
      selected := selected + {cursor};
    }

    /** ToggleAllNotes selects every note, or clears the selection when all are selected. */
    method ToggleAllNotes()
      requires Valid()
      modifies this`selected
      ensures Valid()
      ensures View() == AfterToggleAll(old(View()))
    {
      HelpersKeepInv(View(), [], 0);
      if |notes| == 0 {
        return;
      }
      if |selected| == |notes| {
        selected := {};
        return;
      }
      selected := SelectEvery(selected, |notes|);
    }

    /** SelectedNotes: the raw map of every selected note, once each, in the map's order. */
    method SelectedNotes() returns (raws: seq<Fields>)
      requires Valid()
      ensures |raws| == |selected|
      ensures ListsSelection(raws, notes, selected)
    {
      var ok;
      ghost var order;
      ok, raws, order := CollectRaws(notes, selected);
    }

    /** HandleSpinnerTick consumes a spinner tick (the spinner itself is not modelled). */
    method HandleSpinnerTick(msg: Msg) returns (cmd: Cmd, handled: bool)
      ensures handled <==> msg.Tick?
      ensures cmd == if handled then Widget else NoCmd
    {
      if !msg.Tick? {
        return NoCmd, false;
      }
      return Widget, true;
    }

    /** HandleAsyncMsg processes the three shared completions and reports whether msg was one. */
    method HandleAsyncMsg(msg: Msg) returns (handled: bool)
      requires Valid()
      modifies this
      ensures Valid()
      ensures handled <==> IsAsync(msg)
      ensures handled ==> View() == AfterAsync(old(View()), msg)
      ensures !handled ==> View() == old(View())
    {
      if IsAsync(msg) {
        AsyncKeepsInv(View(), msg);
      }
      match msg
      case Generated(raws) =>
        loading := false;
        status := "generated";
        ResetNotes(raws);
        return true;
      case GenerateErr(e) =>
        loading := false;
        err := Some(e);
        status := "generation error";
        return true;
      case AnkiResult(ankiErr) =>
        loading := false;
        if ankiErr.Some? {
          status := "anki error: " + ankiErr.value;
        } else {
          status := "added to anki";
        }
        return true;
      case _ =>
        return false;
    }
  }
}
