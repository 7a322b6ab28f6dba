/** Running one command on an authenticated SSH session: a channel is opened
    with stderr merged into stdout, the command is started, the input (if
    any) written, end-of-input sent, the output either captured or copied to
    the local stdout, the channel waited on and closed, and the exit status
    turned into a result. */
module Runner {
  import opened Base

  /** One call made on a channel, in the order the runner makes them. */
  datatype Event =
    | Open                  // the session opens a channel
    | MergeStderr           // stderr is merged into the stdout stream
    | Exec(cmd: string)
    | Write(data: seq<byte>)
    | SendEof
    | Read(captured: string)  // the merged output is read into a string
    | Copy(copied: string)    // the merged output is copied to the local stdout
    | WaitClose
    | Close
    | ExitStatus

  /** How the remote side behaves on one channel: the merged output of the
      command, its exit status, and, when the transport fails, the position
      (counting from 0) of the channel call that fails. */
  datatype Reply = Reply(output: string, status: int, failAt: Option<nat>)

  datatype RunError =
    | Transport(at: Event)
    | ExitFailure(cmd: string, status: int, output: Option<string>)

  /** A command channel whose remote behaviour is fixed by `reply`; `events`
      records every call made on it. */
  class Channel {
    const reply: Reply
    var events: seq<Event>

    constructor (reply: Reply)
      ensures this.reply == reply && events == []
    {
      this.reply := reply;
      events := [];
    }

    /** Records a call; it fails exactly when it is the call `reply.failAt`
        names. */
    method Call(e: Event) returns (ok: bool)
      modifies this
      ensures events == old(events) + [e]
      ensures ok <==> reply.failAt != Some(|old(events)|)
    {
      ok := reply.failAt != Some(|events|);
      events := events + [e];
    }

    method ReadToString() returns (ok: bool, s: string)
      modifies this
      ensures events == old(events) + [Read(reply.output)]
      ensures ok <==> reply.failAt != Some(|old(events)|)
      ensures s == if ok then reply.output else ""
    {
      ok := Call(Read(reply.output));
      s := if ok then reply.output else "";
    }

    method CopyToStdout() returns (ok: bool)
      modifies this
      ensures events == old(events) + [Copy(reply.output)]
      ensures ok <==> reply.failAt != Some(|old(events)|)
    {
      ok := Call(Copy(reply.output));
    }

    /** The output step: read into a string when it is returned, copied to
        the local stdout otherwise; the string stays empty unless read. */
    method Drain(returnOutput: bool) returns (ok: bool, output: string)
      modifies this
      ensures events == old(events) + [if returnOutput then Read(reply.output) else Copy(reply.output)]
      ensures ok <==> reply.failAt != Some(|old(events)|)
      ensures output == if ok && returnOutput then reply.output else ""
    {
      output := "";
      if returnOutput {
        ok, output := ReadToString();
      } else {
        ok := CopyToStdout();
      }
    }

    method GetExitStatus() returns (ok: bool, status: int)
      modifies this
      ensures events == old(events) + [ExitStatus]
      ensures ok <==> reply.failAt != Some(|old(events)|)
      ensures ok ==> status == reply.status
    {
      ok := Call(ExitStatus);
      status := if ok then reply.status else 0;
    }
  }

  /** Every call a run makes when the transport does not fail. */
  function Protocol(cmd: string, stdin: seq<byte>, returnOutput: bool, output: string): seq<Event>
  {
    [Open, MergeStderr, Exec(cmd)]
    + (if |stdin| > 0 then [Write(stdin)] else [])
    + [SendEof, if returnOutput then Read(output) else Copy(output), WaitClose, Close, ExitStatus]
  }

  /** The calls a run makes: the protocol, cut after the call that fails. */
  function RunTrace(cmd: string, stdin: seq<byte>, returnOutput: bool, reply: Reply): seq<Event>
  {
    var full := Protocol(cmd, stdin, returnOutput, reply.output);
    if reply.failAt.Some? && reply.failAt.value < |full| then full[..reply.failAt.value + 1] else full
  }

  /** What a run returns: the failing call, or the exit status mapped to an
      error naming the command, or the output. */
  function RunResult(cmd: string, stdin: seq<byte>, returnOutput: bool, reply: Reply): Result<string, RunError>
  {
    var full := Protocol(cmd, stdin, returnOutput, reply.output);
    if reply.failAt.Some? && reply.failAt.value < |full| then Err(Transport(full[reply.failAt.value]))
    else if reply.status != 0 then
      Err(ExitFailure(cmd, reply.status, if returnOutput then Some(reply.output) else None))
    else Ok(if returnOutput then Trim(reply.output) else "")
  }

  /** The protocol call by call: `w` is 1 when there is input to write. */
  lemma ProtocolShape(cmd: string, stdin: seq<byte>, returnOutput: bool, output: string)
    ensures var p := Protocol(cmd, stdin, returnOutput, output);
      var w := if |stdin| > 0 then 1 else 0;
      && |p| == 8 + w
      && p[0] == Open && p[1] == MergeStderr && p[2] == Exec(cmd)
      && (w == 1 ==> p[3] == Write(stdin))
      && p[3 + w] == SendEof
      && p[4 + w] == (if returnOutput then Read(output) else Copy(output))
      && p[5 + w] == WaitClose && p[6 + w] == Close && p[7 + w] == ExitStatus
  {
  }

  /** One more call of the protocol extends the prefix made so far. */
  lemma Extend(full: seq<Event>, done: seq<Event>, e: Event)
    requires |done| < |full| && done == full[..|done|] && e == full[|done|]
    ensures done + [e] == full[..|done| + 1]
  {
  }

  /** A transport failure at call `k` cuts the trace after that call and is
      the result. */
  lemma CutAt(cmd: string, stdin: seq<byte>, returnOutput: bool, reply: Reply, k: nat)
    requires reply.failAt == Some(k) && k < |Protocol(cmd, stdin, returnOutput, reply.output)|
    ensures var p := Protocol(cmd, stdin, returnOutput, reply.output);
      RunTrace(cmd, stdin, returnOutput, reply) == p[..k + 1] &&
      RunResult(cmd, stdin, returnOutput, reply) == Err(Transport(p[k]))
  {
  }

  /** The calls up to end-of-input: open, merge, exec, the input when there
      is some, EOF. They are a prefix of the protocol; on failure the last
      of them is the one that failed, otherwise none failed. */
  method Start(ch: Channel, cmd: string, stdin: seq<byte>, returnOutput: bool) returns (ok: bool, failed: Event)
    requires ch.events == []
    modifies ch
    ensures var full := Protocol(cmd, stdin, returnOutput, ch.reply.output);
      var n := |ch.events|;
      && 1 <= n <= |full| && ch.events == full[..n]
      && (ok ==> n == 4 + (if |stdin| > 0 then 1 else 0) && (ch.reply.failAt.None? || ch.reply.failAt.value >= n))
      && (!ok ==> ch.reply.failAt == Some(n - 1) && failed == full[n - 1])
  {
    ghost var full := Protocol(cmd, stdin, returnOutput, ch.reply.output);
    ProtocolShape(cmd, stdin, returnOutput, ch.reply.output);
    failed := Open;
    ok := ch.Call(Open);
    Extend(full, [], Open);
    if !ok { return; }
    ghost var before := ch.events;
    failed := MergeStderr;
    ok := ch.Call(MergeStderr);
    Extend(full, before, MergeStderr);
    if !ok { return; }
    before := ch.events;
    failed := Exec(cmd);
    ok := ch.Call(Exec(cmd));
    Extend(full, before, Exec(cmd));
    if !ok { return; }
    if |stdin| > 0 {
      before := ch.events;
      failed := Write(stdin);
      ok := ch.Call(Write(stdin));
      Extend(full, before, Write(stdin));
      if !ok { return; }
    }
    before := ch.events;
    failed := SendEof;
    ok := ch.Call(SendEof);
    Extend(full, before, SendEof);
  }

  /** `SessionExt::run` on a freshly opened channel. */
  method Run(ch: Channel, cmd: string, stdin: seq<byte>, returnOutput: bool) returns (r: Result<string, RunError>)
    requires ch.events == []
    modifies ch
    ensures ch.events == RunTrace(cmd, stdin, returnOutput, ch.reply)
    ensures r == RunResult(cmd, stdin, returnOutput, ch.reply)
  {
    ghost var full := Protocol(cmd, stdin, returnOutput, ch.reply.output);
    ghost var w := if |stdin| > 0 then 1 else 0;
    var ok, failed := Start(ch, cmd, stdin, returnOutput);
    if !ok {
      CutAt(cmd, stdin, returnOutput, ch.reply, |ch.events| - 1);
      return Err(Transport(failed));
    }
    ProtocolShape(cmd, stdin, returnOutput, ch.reply.output);
    ghost var before := ch.events;
    var output;
    ok, output := ch.Drain(returnOutput);
    Extend(full, before, if returnOutput then Read(ch.reply.output) else Copy(ch.reply.output));
    if !ok {
      CutAt(cmd, stdin, returnOutput, ch.reply, 4 + w);
      return Err(Transport(if returnOutput then Read(ch.reply.output) else Copy(ch.reply.output)));
    }
    before := ch.events;
    ok := ch.Call(WaitClose);
    Extend(full, before, WaitClose);
    if !ok {
      CutAt(cmd, stdin, returnOutput, ch.reply, 5 + w);
      return Err(Transport(WaitClose));
    }
    before := ch.events;
    ok := ch.Call(Close);
    Extend(full, before, Close);
    if !ok {
      CutAt(cmd, stdin, returnOutput, ch.reply, 6 + w);
      return Err(Transport(Close));
    }
    before := ch.events;
    var status;
    ok, status := ch.GetExitStatus();
    Extend(full, before, ExitStatus);
    if !ok {
      CutAt(cmd, stdin, returnOutput, ch.reply, 7 + w);
      return Err(Transport(ExitStatus));
    }
    assert ch.events == full;
    if status != 0 {
      return Err(ExitFailure(cmd, status, if returnOutput then Some(output) else None));
    }
    r := Ok(Trim(output));
  }

  /** The text of the error a non-zero exit status raises. */
  function ExitMessage(cmd: string, status: int, output: Option<string>): string
  {
    "`" + cmd + "` returned exit status " + IntToString(status)
    + (match output case Some(o) => "\noutput: " + o case None => "")
  }

  /** The input is written to the channel exactly when it is not empty, and
      then in full. */
  lemma WritesOnlyNonEmptyInput(cmd: string, stdin: seq<byte>, returnOutput: bool, output: string)
    ensures var p := Protocol(cmd, stdin, returnOutput, output);
      (exists i :: 0 <= i < |p| && p[i].Write?) <==> |stdin| > 0
    ensures var p := Protocol(cmd, stdin, returnOutput, output);
      forall i :: 0 <= i < |p| && p[i].Write? ==> p[i].data == stdin
  {
    var p := Protocol(cmd, stdin, returnOutput, output);
    if |stdin| > 0 {
      assert p[3].Write?;
    }
  }

  /** End-of-input is sent before the output is read or copied, and the
      exit status is asked for last, after the channel was waited on and
      closed: in every trace, cut short or not. */
  lemma {:induction false} TraceOrder(cmd: string, stdin: seq<byte>, returnOutput: bool, reply: Reply)
    ensures var t := RunTrace(cmd, stdin, returnOutput, reply);
      forall i, j :: 0 <= i < |t| && 0 <= j < |t| && (t[j].Read? || t[j].Copy?) && t[i] == SendEof ==> i < j
    ensures var t := RunTrace(cmd, stdin, returnOutput, reply);
      forall j :: 0 <= j < |t| && t[j] == ExitStatus ==>
        j == |t| - 1 && j >= 2 && t[j - 2] == WaitClose && t[j - 1] == Close
    ensures var t := RunTrace(cmd, stdin, returnOutput, reply);
      forall j :: 0 <= j < |t| && (t[j].Read? || t[j].Copy?) ==> exists i :: 0 <= i < j && t[i] == SendEof
  {
    var p := Protocol(cmd, stdin, returnOutput, reply.output);
    var t := RunTrace(cmd, stdin, returnOutput, reply);
    var w := if |stdin| > 0 then 1 else 0;
    assert |p| == 8 + w;
    assert p[3 + w] == SendEof;
    assert forall j :: 0 <= j < |p| && (p[j].Read? || p[j].Copy?) ==> j == 4 + w;
    assert forall j :: 0 <= j < |p| && p[j] == SendEof ==> j == 3 + w;
    assert forall j :: 0 <= j < |p| && p[j] == ExitStatus ==> j == 7 + w;
    assert |t| <= |p| && t == p[..|t|];
  }

  /** Without output capture the output goes to the local stdout and a
      successful run returns the empty string. */
  lemma PassthroughReturnsEmpty(cmd: string, stdin: seq<byte>, reply: Reply)
    ensures var r := RunResult(cmd, stdin, false, reply);
      r.Ok? ==> r.value == "" && Copy(reply.output) in RunTrace(cmd, stdin, false, reply)
    ensures forall e :: e in RunTrace(cmd, stdin, false, reply) ==> !e.Read?
  {
  }

  /** With output capture nothing goes to the local stdout and a successful
      run returns the output with the surrounding whitespace trimmed. */
  lemma CaptureReturnsTrimmedOutput(cmd: string, stdin: seq<byte>, reply: Reply)
    ensures var r := RunResult(cmd, stdin, true, reply);
      r.Ok? ==> r.value == Trim(reply.output) && Read(reply.output) in RunTrace(cmd, stdin, true, reply)
    ensures forall e :: e in RunTrace(cmd, stdin, true, reply) ==> !e.Copy?
  {
  }

  /** On a channel whose transport holds, the output is copied to the local
      stdout exactly when it is not captured. */
  lemma CopiedIffNotCaptured(cmd: string, stdin: seq<byte>, returnOutput: bool, reply: Reply)
    requires reply.failAt.None?
    ensures Copy(reply.output) in RunTrace(cmd, stdin, returnOutput, reply) <==> !returnOutput
  {
    var p := Protocol(cmd, stdin, returnOutput, reply.output);
    var w := if |stdin| > 0 then 1 else 0;
    assert forall j :: 0 <= j < |p| && p[j].Copy? ==> j == 4 + w;
    if !returnOutput {
      assert p[4 + w] == Copy(reply.output);
    }
  }

  /** The only data a run writes to its channel is its input: nothing when
      the input is empty, and the whole input, once the transport holds. */
  lemma WritesOnlyInput(cmd: string, stdin: seq<byte>, returnOutput: bool, reply: Reply)
    ensures forall e :: e in RunTrace(cmd, stdin, returnOutput, reply) && e.Write? ==>
      |stdin| > 0 && e == Write(stdin)
    ensures |stdin| > 0 && reply.failAt.None? ==> Write(stdin) in RunTrace(cmd, stdin, returnOutput, reply)
  {
    var p := Protocol(cmd, stdin, returnOutput, reply.output);
    var t := RunTrace(cmd, stdin, returnOutput, reply);
    ProtocolShape(cmd, stdin, returnOutput, reply.output);
    var w := if |stdin| > 0 then 1 else 0;
    assert forall j :: 0 <= j < |p| && p[j].Write? ==> w == 1 && j == 3;
    assert |t| <= |p| && t == p[..|t|];
    forall e | e in t && e.Write? ensures |stdin| > 0 && e == Write(stdin) {
      var j :| 0 <= j < |t| && t[j] == e;
      assert p[j] == e;
    }
  }

  /** A run succeeds exactly when the transport does not fail and the exit
      status is 0; a non-zero status is an error naming the command and the
      status, carrying the output exactly when it was captured. */
  lemma ExitStatusDecides(cmd: string, stdin: seq<byte>, returnOutput: bool, reply: Reply)
    ensures var t := RunTrace(cmd, stdin, returnOutput, reply);
      RunResult(cmd, stdin, returnOutput, reply).Ok? <==>
        reply.status == 0 && t == Protocol(cmd, stdin, returnOutput, reply.output) &&
        (reply.failAt.Some? ==> reply.failAt.value >= |t|)
    ensures var r := RunResult(cmd, stdin, returnOutput, reply);
      r.Err? && r.error.ExitFailure? ==>
        && r.error.cmd == cmd && r.error.status == reply.status != 0
        && (r.error.output.Some? <==> returnOutput)
        && (returnOutput ==> r.error.output.value == reply.output)
  {
  }

  /** The error message names the command and the status, and ends with the
      captured output exactly when there is one. */
  lemma ExitMessageShape(cmd: string, status: int, output: Option<string>)
    ensures var m := ExitMessage(cmd, status, output);
      var head := "`" + cmd + "` returned exit status " + IntToString(status);
      |head| <= |m| && m[..|head|] == head &&
      (output.None? ==> m == head) &&
      (output.Some? ==> m[|head|..] == "\noutput: " + output.value)
  {
  }
}
