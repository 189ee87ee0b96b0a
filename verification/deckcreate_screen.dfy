/**
 * The deck-creation screen (internal/ui/deckcreate/model.go): type a name,
 * confirm to create the deck in Anki, and take the creation result.
 */
module DeckCreateScreen {
  import opened UiTypes
  import opened Shared

  /** Model.Init: the name input is emptied and focused. */
  method Init(app: AppState) returns (cmd: Cmd)
    requires app.Valid()
    modifies app`deckInput, app`inputFocused
    ensures app.Valid()
    ensures cmd == Widget
    ensures app.View() == old(app.View()).(deckInput := "", inputFocused := true)
  {
    app.deckInput := "";
    app.inputFocused := true;
    return Widget;
  }

  /** The session after a deck-creation result: on success the deck is appended and becomes active. */
  function AfterDeckCreated(s: Session, deck: string, deckErr: Option<string>): Session
  {
    match deckErr
    case Some(e) => s.(status := "error creating deck: " + e)
    case None => s.(deckName := deck, deckList := s.deckList + [deck], status := "deck created")
  }

  /** A creation result only appends to the deck list and keeps the invariant. */
  lemma DeckCreatedGrowsList(s: Session, deck: string, deckErr: Option<string>)
    requires Inv(s)
    ensures Inv(AfterDeckCreated(s, deck, deckErr))
    ensures var t := AfterDeckCreated(s, deck, deckErr);
      && s.deckList <= t.deckList
      && (deckErr.None? ==> |t.deckList| == |s.deckList| + 1 && t.deckList[|s.deckList|] == deck && t.deckName == deck)
      && (deckErr.Some? ==> t.deckList == s.deckList && t.deckName == s.deckName)
  {
  }

  /** The cases of the key switch of Model.Update. */
  datatype Action = Cancel | Confirm | Ignore

  function ActionOf(k: string): Action
  {
    if k == "esc" then Cancel else if k == "enter" then Confirm else Ignore
  }

  /**
   * Model.Update. Completions first, then the deck-creation result, then the
   * text input takes the message (`input` is what it answers), then the keys.
   */
  method Update(app: AppState, msg: Msg, input: InputReply) returns (next: Screen, cmd: Cmd)
    requires app.Valid()
    modifies app
    ensures app.Valid()
    ensures StepFacts(old(app.View()), app.View(), msg, cmd)
    ensures msg.Tick? ==> next == DeckCreate && cmd == Widget && app.View() == old(app.View())
    ensures IsAsync(msg) ==>
      next == DeckCreate && cmd == NoCmd && app.View() == AfterAsync(old(app.View()), msg)
    ensures msg.DeckCreated? ==>
      next == Notes && cmd == Widget && app.View() == AfterDeckCreated(old(app.View()), msg.deck, msg.deckErr)
    ensures msg.Key? || msg.Other? ==> InputEffect(old(app.View()), app.View(), msg, input, next, cmd)
  {
    var tickCmd, ticked := app.HandleSpinnerTick(msg);
    if ticked {
      return DeckCreate, tickCmd;
    }
    var handled := app.HandleAsyncMsg(msg);
    if handled {
      return DeckCreate, NoCmd;
    }
    if msg.DeckCreated? {
      TakeDeckCreated(app, msg.deck, msg.deckErr);
      return Notes, Widget;
    }
    next, cmd := HandleInput(app, msg, input);
  }

  /** What the screen does with a message the text input takes, from session `s` to `t`. */
  ghost predicate InputEffect(s: Session, t: Session, msg: Msg, input: InputReply, next: Screen, cmd: Cmd)
  {
    var action := if msg.Key? then ActionOf(msg.key) else Ignore;
    match action
    case Ignore =>
      && next == DeckCreate && cmd == (if input.hasCmd then Widget else NoCmd)
      && t == s.(deckInput := input.value)
    case Cancel =>
      next == Notes && cmd == Widget && t == s.(deckInput := input.value, inputFocused := false)
    case Confirm =>
      if input.value == "" then
        next == DeckCreate && cmd == NoCmd && t == s.(deckInput := "", status := "deck name cannot be empty")
      else
        && next == DeckCreate && cmd == CreateDeck(input.value)
        && t == s.(deckInput := input.value, status := "creating deck...", inputFocused := false)
  }

  /** Model.Update from the text input's update on: esc cancels, enter validates the name. */
  method HandleInput(app: AppState, msg: Msg, input: InputReply) returns (next: Screen, cmd: Cmd)
    requires app.Valid()
    modifies app`deckInput, app`inputFocused, app`status
    ensures app.Valid()
    ensures InputEffect(old(app.View()), app.View(), msg, input, next, cmd)
  {
    app.deckInput := input.value;
    var inputCmd := if input.hasCmd then Widget else NoCmd;
    if msg.Key? {
      match ActionOf(msg.key)
      case Cancel =>
        app.inputFocused := false;
        return Notes, Widget;
      case Confirm =>
        cmd := ConfirmName(app);
        return DeckCreate, cmd;
      case Ignore =>
    }
    return DeckCreate, inputCmd;
  }

  /** The "enter" case: an empty name is refused, any other starts the creation. */
  method ConfirmName(app: AppState) returns (cmd: Cmd)
    requires app.Valid()
    modifies app`status, app`inputFocused
    ensures app.Valid()
    ensures app.deckInput == "" ==> cmd == NoCmd && app.View() == old(app.View()).(status := "deck name cannot be empty")
    ensures app.deckInput != "" ==>
      && cmd == CreateDeck(app.deckInput)
      && app.View() == old(app.View()).(status := "creating deck...", inputFocused := false)
  {
    var deckName := app.deckInput;
    if deckName == "" {
      app.status := "deck name cannot be empty";
      return NoCmd;
    }
    app.status := "creating deck...";
    app.inputFocused := false;
    return CreateDeck(deckName);
  }

  /** The DeckCreatedMsg branch of Model.Update. */
  method TakeDeckCreated(app: AppState, deck: string, deckErr: Option<string>)
    requires app.Valid()
    modifies app`deckName, app`deckList, app`status
    ensures app.Valid()
    ensures app.View() == AfterDeckCreated(old(app.View()), deck, deckErr)
  {
    DeckCreatedGrowsList(app.View(), deck, deckErr);
    if deckErr.Some? {
      app.status := "error creating deck: " + deckErr.value;
    } else {
      app.deckName := deck;
      app.deckList := app.deckList + [deck];
      app.status := "deck created";
    }
  }
}
