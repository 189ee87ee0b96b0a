/**
 * The screen machine of internal/ui: the Bubble Tea runtime hands every
 * message to the active screen's Update, and the model that Update returns
 * becomes the active screen. The screen factory (internal/ui/factory) is
 * replaced by the Screen datatype; each screen model only wraps the shared
 * AppState, so a screen is fully described by its name.
 */
module Machine {
  import opened UiTypes
  import opened Shared
  import PickerScreen
  import NotesScreen
  import DeckSelectScreen
  import DeckCreateScreen

  /** One delivered message, with what the file picker and the text input answer to it. */
  datatype Event = Event(msg: Msg, picker: PickerReply, input: InputReply)

  /** ui.go NewModel: the shared state is built and the picker is the first screen. */
  method Start(listing: Option<seq<string>>) returns (app: AppState, screen: Screen)
    ensures fresh(app) && app.Valid() && screen == Picker
    ensures app.View() == Session(BasicModel, "", InitialDeckName(ListedDecks(listing)), ListedDecks(listing),
                                  0, "", false, [], {}, 0, "", None, false, false)
  {
    app := new AppState(listing);
    screen := Picker;
  }

  /** Which screens a screen may hand over to in one message. */
  predicate MayFollow(screen: Screen, next: Screen)
  {
    match screen
    case Picker => next == Picker || next == Notes
    case Notes => next == Notes || next == DeckSelect
    case DeckSelect => next == DeckSelect || next == Notes || next == DeckCreate
    case DeckCreate => next == DeckCreate || next == Notes
  }

  /** Once a file is picked the picker is never shown again, and deck creation is only reached from the selector. */
  lemma MayFollowShape(screen: Screen, next: Screen)
    requires MayFollow(screen, next)
    ensures next == Picker ==> screen == Picker
    ensures next == DeckCreate ==> screen == DeckSelect || screen == DeckCreate
    ensures screen == Notes && next != Notes ==> next == DeckSelect
  {
  }

  /**
   * One message delivered to the active screen: the model the factory built
   * for that screen handles it, with that screen's own effect.
   */
  method Step(screen: Screen, app: AppState, ev: Event) returns (next: Screen, cmd: Cmd)
    requires app.Valid()
    modifies app
    ensures app.Valid()
    ensures MayFollow(screen, next)
    ensures StepFacts(old(app.View()), app.View(), ev.msg, cmd)
    ensures ev.msg.Tick? ==> next == screen && cmd == Widget && app.View() == old(app.View())
    ensures IsAsync(ev.msg) ==>
      next == screen && cmd == NoCmd && app.View() == AfterAsync(old(app.View()), ev.msg)
    ensures screen == Picker && !ev.msg.Tick? && !IsAsync(ev.msg) ==>
      PickerScreen.PickerEffect(old(app.View()), app.View(), ev.msg, ev.picker, next, cmd)
    ensures screen == Notes && ev.msg.Key? ==>
      NotesScreen.KeyEffect(old(app.View()), app.View(), ev.msg.key, next, cmd)
    ensures screen == DeckSelect && ev.msg.Key? ==>
      DeckSelectScreen.KeyEffect(old(app.View()), app.View(), ev.msg.key, next, cmd)
    ensures (screen == Notes || screen == DeckSelect) && (ev.msg.DeckCreated? || ev.msg.Other?) ==>
      next == screen && cmd == NoCmd && app.View() == old(app.View())
    ensures screen == DeckCreate && ev.msg.DeckCreated? ==>
      next == Notes && cmd == Widget
      && app.View() == DeckCreateScreen.AfterDeckCreated(old(app.View()), ev.msg.deck, ev.msg.deckErr)
    ensures screen == DeckCreate && (ev.msg.Key? || ev.msg.Other?) ==>
      DeckCreateScreen.InputEffect(old(app.View()), app.View(), ev.msg, ev.input, next, cmd)
  {
    match screen
    case Picker =>
      next, cmd := PickerScreen.Update(app, ev.msg, ev.picker);
    case Notes =>
      next, cmd := NotesScreen.Update(app, ev.msg);
    case DeckSelect =>
      next, cmd := DeckSelectScreen.Update(app, ev.msg);
    case DeckCreate =>
      next, cmd := DeckCreateScreen.Update(app, ev.msg, ev.input);
  }

  /** Each screen of a trace may follow the one before it. */
  ghost predicate Chained(trace: seq<Screen>)
  {
    forall k :: 0 < k < |trace| ==> MayFollow(trace[k - 1], trace[k])
  }

  /** The picker appears in a trace only before every other screen. */
  ghost predicate PickerOnlyFirst(trace: seq<Screen>)
  {
    forall j, k :: 0 <= j <= k < |trace| && trace[k] == Picker ==> trace[j] == Picker
  }

  /** A trace extended by a screen that may follow its last one keeps both properties. */
  lemma ExtendTrace(trace: seq<Screen>, next: Screen)
    requires trace != [] && Chained(trace) && PickerOnlyFirst(trace)
    requires MayFollow(trace[|trace| - 1], next)
    ensures Chained(trace + [next]) && PickerOnlyFirst(trace + [next])
  {
    var t := trace + [next];
    forall j, k | 0 <= j <= k < |t| && t[k] == Picker
      ensures t[j] == Picker
    {
      if k == |trace| {
        assert trace[|trace| - 1] == Picker;
      }
    }
  }

  /**
   * The runtime's message loop over a sequence of events: each goes to the
   * active screen, and the loop stops after a handler quits. `cmds` holds the
   * command of every handled event, and `trace` the screens visited, the
   * starting one first.
   */
  method Run(app: AppState, screen: Screen, events: seq<Event>) returns (final: Screen, cmds: seq<Cmd>, ghost trace: seq<Screen>)
    requires app.Valid()
    modifies app
    ensures app.Valid()
    ensures |cmds| <= |events|
    ensures |cmds| < |events| ==> cmds != [] && cmds[|cmds| - 1] == Quit
    ensures |trace| == |cmds| + 1 && trace[0] == screen && trace[|cmds|] == final
    ensures Chained(trace) && PickerOnlyFirst(trace)
    ensures final == Picker ==> screen == Picker
    ensures old(app.deckList) <= app.deckList
    ensures app.noteModel == old(app.noteModel)
    ensures old(app.err).Some? ==> app.err.Some?
    ensures (forall i :: 0 <= i < |events| ==> !events[i].msg.GenerateErr?) ==> app.err == old(app.err)
    ensures app.cancelled <==> old(app.cancelled) || Quit in cmds
  {
    final, cmds, trace := screen, [], [screen];
    var i := 0;
    while i < |events|
      invariant 0 <= i <= |events| && |cmds| == i
      invariant app.Valid()
      invariant |trace| == i + 1 && trace[0] == screen && trace[i] == final
      invariant Chained(trace) && PickerOnlyFirst(trace)
      invariant final == Picker ==> screen == Picker
      invariant old(app.deckList) <= app.deckList
      invariant app.noteModel == old(app.noteModel)
      invariant old(app.err).Some? ==> app.err.Some?
      invariant (forall j :: 0 <= j < i ==> !events[j].msg.GenerateErr?) ==> app.err == old(app.err)
      invariant app.cancelled <==> old(app.cancelled) || Quit in cmds
    {
      var cmd;
      final, cmd := Step(final, app, events[i]);
      cmds := cmds + [cmd];
      ExtendTrace(trace, final);
      trace := trace + [final];
      i := i + 1;
      if cmd == Quit {
        return;
      }
    }
  }
}
