/**
  The slash-command step of `executeCommand`: the command token (everything
  up to the first space) is lower-cased before the message is routed,
  and the outcomes the action returns for the app-command and the
  server-command paths.
*/
module Command {
  import opened Wrappers
  import opened JsValues

  /** `msg.indexOf(' ')`, with -1 replaced by the length: where the command token ends. */
  function CommandEnd(msg: string): (n: nat)
    ensures n <= |msg|
    ensures forall i :: 0 <= i < n ==> msg[i] != ' '
    ensures n < |msg| ==> msg[n] == ' '
  {
    if |msg| == 0 || msg[0] == ' ' then 0 else 1 + CommandEnd(msg[1..])
  }

  /**
    The normalised message: the lower-cased command token followed by the
    rest of the message as it was, so nothing moves and only letters of the
    token change.
  */
  function Normalized(msg: string): (r: string)
    ensures |r| == |msg|
    ensures r[..CommandEnd(msg)] == Lower(msg[..CommandEnd(msg)])
    ensures r[CommandEnd(msg)..] == msg[CommandEnd(msg)..]
  {
    var cmdLength := CommandEnd(msg);
    var r := Lower(msg[..cmdLength]) + msg[cmdLength..];
    assert r[..cmdLength] == Lower(msg[..cmdLength]);
    assert r[cmdLength..] == msg[cmdLength..];
    r
  }

  /** The command-token normalisation of executeCommand: `msg` and `cmdLength` reassigned in place. */
  method NormalizeCommand(message: string) returns (msg: string, cmdLength: nat)
    ensures cmdLength == CommandEnd(message)
    ensures msg == Normalized(message)
  {
    msg := message;
    cmdLength := CommandEnd(msg);
    var cmd := Lower(msg[..cmdLength]);
    msg := cmd + msg[cmdLength..|msg|];
  }

  /** The token of the normalised message ends where the original token ended. */
  lemma {:induction false} SameCommandEnd(a: string, b: string)
    requires |a| == |b|
    requires forall i :: 0 <= i < |a| ==> (a[i] == ' ' <==> b[i] == ' ')
    ensures CommandEnd(a) == CommandEnd(b)
  {
    if |a| > 0 && a[0] != ' ' {
      assert forall i :: 0 <= i < |a| - 1 ==> a[1..][i] == a[i + 1] && b[1..][i] == b[i + 1];
      SameCommandEnd(a[1..], b[1..]);
    }
  }

  /** Normalising an already normalised message changes nothing. */
  lemma NormalizeIdempotent(msg: string)
    ensures Normalized(Normalized(msg)) == Normalized(msg)
  {
    var n := Normalized(msg);
    var e := CommandEnd(msg);
    assert forall i :: 0 <= i < |msg| ==> (n[i] == ' ' <==> msg[i] == ' ') by {
      forall i | 0 <= i < |msg|
        ensures n[i] == ' ' <==> msg[i] == ' '
      {
        if i < e {
          assert n[i] == n[..e][i] == LowerChar(msg[i]);
        } else {
          assert n[i] == n[e..][i - e] == msg[i];
        }
      }
    }
    SameCommandEnd(n, msg);
    assert Lower(n[..e]) == n[..e];
    assert n == n[..e] + n[e..];
    assert Normalized(n) == Lower(n[..e]) + n[e..];
  }

  /**
    What `executeCommand` resolves to, together with the dialog trigger id
    it dispatches on the way, if any.
  */
  datatype CommandResult = CommandResult(value: Json, triggerId: Option<Json>)

  /** `{error: {message}}`. */
  function ErrorResult(message: Json): Json
  {
    JObj([("error", JObj([("message", message)]))])
  }

  /**
    The decision `executeCommand` takes after normalising. The parser, the
    app call and the server call are parameters: `isAppCommand` sees the
    normalised message, `composeCall` the original one (None when no call
    can be built), `doAppCall` receives the call with its `type` set to
    `submitType`, and `executeService` receives the normalised message and
    gives what its dispatch resolved to.
  */
  function ExecuteCommand(
    message: string,
    appsAreEnabled: bool,
    isAppCommand: string -> bool,
    composeCall: string -> Option<Fields>,
    submitType: Json,
    doAppCall: Fields -> Json,
    executeService: string -> Json
  ): (r: Result<CommandResult, string>)
    ensures var msg := Normalized(message);
      appsAreEnabled && isAppCommand(msg) && composeCall(message).None? ==>
        r == Success(CommandResult(ErrorResult(JStr("Error submitting command")), None))
    ensures var msg := Normalized(message);
      appsAreEnabled && isAppCommand(msg) && composeCall(message).Some? ==>
        var res := doAppCall(Put(composeCall(message).value, "type", submitType));
        r == Success(CommandResult(
          if Truthy(Get(Get(res, "data"), "error")) then ErrorResult(Get(Get(res, "data"), "error")) else res,
          None))
    ensures var msg := Normalized(message);
      !(appsAreEnabled && isAppCommand(msg)) ==>
        var res := executeService(msg);
        (r.Failure? <==> res.JNull? || res.JUndefined?)
        && (r.Success? ==>
          && Get(r.value.value, "data") == Get(res, "data")
          && Get(r.value.value, "error") == Get(res, "error")
          && (r.value.triggerId.Some? <==> Truthy(Get(Get(res, "data"), "trigger_id")))
          && (r.value.triggerId.Some? ==> r.value.triggerId.value == Get(Get(res, "data"), "trigger_id")))
  {
    var msg := Normalized(message);
    if appsAreEnabled && isAppCommand(msg) then
      match composeCall(message)
      case None => Success(CommandResult(ErrorResult(JStr("Error submitting command")), None))
      case Some(call) =>
        var res := doAppCall(Put(call, "type", submitType));
        var error := Get(Get(res, "data"), "error");
        if Truthy(error) then Success(CommandResult(ErrorResult(error), None))
        else Success(CommandResult(res, None))
    else
      var res := executeService(msg);
      if res.JNull? || res.JUndefined? then Failure("TypeError")
      else
        var data := Get(res, "data");
        var error := Get(res, "error");
        var trigger := Get(data, "trigger_id");
        var value := JObj([("data", data), ("error", error)]);
        LookupAt(value.fields, "data", 0);
        LookupAt(value.fields, "error", 1);
        Success(CommandResult(value, if Truthy(trigger) then Some(trigger) else None))
  }
}
