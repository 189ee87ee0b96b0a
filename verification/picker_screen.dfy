/**
 * The PDF picker (internal/ui/picker/model.go). The file picker widget is
 * not modelled: `reply` says what it answers for the message.
 */
module PickerScreen {
  import opened UiTypes
  import opened Shared

  /** Model.Update: completions first, then the widget, the quit keys, a chosen file, a refused file. */
  method Update(app: AppState, msg: Msg, reply: PickerReply) returns (next: Screen, cmd: Cmd)
    requires app.Valid()
    modifies app
    ensures app.Valid()
    ensures StepFacts(old(app.View()), app.View(), msg, cmd)
    ensures app.deckList == old(app.deckList)
    ensures msg.Tick? ==> next == Picker && cmd == Widget && app.View() == old(app.View())
    ensures IsAsync(msg) ==>
      next == Picker && cmd == NoCmd && app.View() == AfterAsync(old(app.View()), msg)
    ensures !msg.Tick? && !IsAsync(msg) ==> PickerEffect(old(app.View()), app.View(), msg, reply, next, cmd)
  {
    var tickCmd, ticked := app.HandleSpinnerTick(msg);
    if ticked {
      return Picker, tickCmd;
    }
    var handled := app.HandleAsyncMsg(msg);
    if handled {
      return Picker, NoCmd;
    }
    next, cmd := HandlePickerMsg(app, msg, reply);
  }

  /** Model.Update after the tick and the completions: the widget's own command, quit, a chosen or refused file. */
  method HandlePickerMsg(app: AppState, msg: Msg, reply: PickerReply) returns (next: Screen, cmd: Cmd)
    requires app.Valid()
    modifies app`cancelled, app`pdfPath, app`loading, app`status
    ensures app.Valid()
    ensures PickerEffect(old(app.View()), app.View(), msg, reply, next, cmd)
    ensures app.loading && !old(app.loading) ==> StartsTask(cmd)
  {
    if reply.hasCmd {
      return Picker, Widget;
    }
    if msg == Key("q") || msg == Key("ctrl+c") {
      app.cancelled := true;
      return Picker, Quit;
    }
    if reply.selectedFile.Some? {
      var path := reply.selectedFile.value;
      app.pdfPath := path;
      app.loading := true;
      app.status := "generating notes...";
      cmd := Batch([Generate(app.pdfPath, app.noteModel), Widget]);
      assert StartsTask(cmd.cmds[0]);
      return Notes, cmd;
    }
    if reply.selectedDisabled {
      app.status := "cannot select that file";
    }
    return Picker, NoCmd;
  }

  /** What the picker does with a message that is neither a tick nor a completion. */
  ghost predicate PickerEffect(s: Session, t: Session, msg: Msg, reply: PickerReply, next: Screen, cmd: Cmd)
  {
    if reply.hasCmd then
      next == Picker && cmd == Widget && t == s
    else if msg == Key("q") || msg == Key("ctrl+c") then
      next == Picker && cmd == Quit && t == s.(cancelled := true)
    else if reply.selectedFile.Some? then
      var path := reply.selectedFile.value;
      && next == Notes && cmd == Batch([Generate(path, s.noteModel), Widget])
      && t == s.(pdfPath := path, loading := true, status := "generating notes...")
    else if reply.selectedDisabled then
      next == Picker && cmd == NoCmd && t == s.(status := "cannot select that file")
    else
      next == Picker && cmd == NoCmd && t == s
  }
}
