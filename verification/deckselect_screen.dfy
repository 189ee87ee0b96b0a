/**
 * The deck selector (internal/ui/deckselect/model.go): the synthetic
 * "+ Create new deck" entry followed by the known decks, a cursor over them,
 * choose or cancel.
 */
module DeckSelectScreen {
  import opened UiTypes
  import opened Shared
  import DeckCreateScreen

  /** minInt: the smaller of two integers. */
  function MinInt(a: int, b: int): (r: int)
    ensures r <= a && r <= b
    ensures r == a || r == b
  {
    if a < b then a else b
  }

  /** maxInt: the larger of two integers. */
  function MaxInt(a: int, b: int): (r: int)
    ensures r >= a && r >= b
    ensures r == a || r == b
  {
    if a > b then a else b
  }

  /** The cases of the key switch of Model.Update. */
  datatype Action = Back | CursorUp | CursorDown | Choose | Ignore

  function ActionOf(k: string): Action
  {
    if k == "q" || k == "ctrl+c" || k == "esc" then Back
    else if k == "up" || k == "k" then CursorUp
    else if k == "down" || k == "j" then CursorDown
    else if k == "enter" then Choose
    else Ignore
  }

  /**
   * What one key press does on the deck selector, from session `s` to `t`.
   * Choosing compares the entry's text with "+ Create new deck", not its
   * position, so a deck of that very name also leads to deck creation.
   */
  ghost predicate KeyEffect(s: Session, t: Session, k: string, next: Screen, cmd: Cmd)
    requires Inv(s)
  {
    match ActionOf(k)
    case Back => next == Notes && cmd == Widget && t == s.(status := "")
    case CursorUp => next == DeckSelect && cmd == NoCmd && t == s.(deckCursor := MaxInt(0, s.deckCursor - 1))
    case CursorDown =>
      next == DeckSelect && cmd == NoCmd && t == s.(deckCursor := MinInt(|s.deckList|, s.deckCursor + 1))
    case Choose =>
      var entry := DeckEntry(s.deckList, s.deckCursor);
      if entry == CreateDeckEntry then
        next == DeckCreate && cmd == Widget && t == s.(deckInput := "", inputFocused := true)
      else
        next == Notes && cmd == Widget && t == s.(deckName := entry, status := "deck changed to " + entry)
    case Ignore => next == DeckSelect && cmd == NoCmd && t == s
  }

  /** The deck cursor stays on an entry of the selector whatever key is pressed. */
  lemma CursorStaysOnEntry(c: int, n: nat)
    requires 0 <= c <= n
    ensures 0 <= MaxInt(0, c - 1) <= n && 0 <= MinInt(n, c + 1) <= n
    ensures c > 0 ==> MaxInt(0, c - 1) == c - 1
    ensures c < n ==> MinInt(n, c + 1) == c + 1
  {
  }

  /** Model.Update: completions first, then the keys. */
  method Update(app: AppState, msg: Msg) returns (next: Screen, cmd: Cmd)
    requires app.Valid()
    modifies app
    ensures app.Valid()
    ensures StepFacts(old(app.View()), app.View(), msg, cmd)
    ensures app.deckList == old(app.deckList)
    ensures msg.Tick? ==> next == DeckSelect && cmd == Widget && app.View() == old(app.View())
    ensures IsAsync(msg) ==>
      next == DeckSelect && cmd == NoCmd && app.View() == AfterAsync(old(app.View()), msg)
    ensures msg.DeckCreated? || msg.Other? ==>
      next == DeckSelect && cmd == NoCmd && app.View() == old(app.View())
    ensures msg.Key? ==> KeyEffect(old(app.View()), app.View(), msg.key, next, cmd)
  {
    var tickCmd, ticked := app.HandleSpinnerTick(msg);
    if ticked {
      return DeckSelect, tickCmd;
    }
    var handled := app.HandleAsyncMsg(msg);
    if handled {
      return DeckSelect, NoCmd;
    }
    if msg.Key? {
      next, cmd := HandleKey(app, msg.key);
    } else {
      next, cmd := DeckSelect, NoCmd;
    }
  }

  /** The key switch of Model.Update, over the visible deck list. */
  method HandleKey(app: AppState, k: string) returns (next: Screen, cmd: Cmd)
    requires app.Valid()
    modifies app`status, app`deckCursor, app`deckName, app`deckInput, app`inputFocused
    ensures app.Valid()
    ensures KeyEffect(old(app.View()), app.View(), k, next, cmd)
  {
    var decks := VisibleDecks(app.deckList);
    next, cmd := DeckSelect, NoCmd;
    match ActionOf(k)
    case Back =>
      app.status := "";
      next, cmd := Notes, Widget;
    case CursorUp =>
      app.deckCursor := MaxInt(0, app.deckCursor - 1);
    case CursorDown =>
      app.deckCursor := MinInt(|decks| - 1, app.deckCursor + 1);
    case Choose =>
      next, cmd := ChooseEntry(app, decks);
    case Ignore =>
  }

  /** The "enter" branch: create a deck, or make the chosen deck the active one. */
  method ChooseEntry(app: AppState, decks: seq<string>) returns (next: Screen, cmd: Cmd)
    requires app.Valid()
    requires |decks| == |app.deckList| + 1
    requires forall i :: 0 <= i < |decks| ==> decks[i] == DeckEntry(app.deckList, i)
    modifies app`deckName, app`status, app`deckInput, app`inputFocused
    ensures app.Valid()
    ensures KeyEffect(old(app.View()), app.View(), "enter", next, cmd)
  {
    var selected := decks[app.deckCursor];
    if selected == CreateDeckEntry {
      cmd := DeckCreateScreen.Init(app);
      return DeckCreate, cmd;
    }
    app.deckName := selected;
    app.status := "deck changed to " + selected;
    return Notes, Widget;
  }
}
