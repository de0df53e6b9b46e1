/** How the App Server client answers a request from the server, and reports to the tracker that
    reserved it. Handlers, writes, event hooks and the thread start are outside; each is given by
    what it does. A raised exception is a returned value here. */
module ServerRequests {

  // An ordinary exception, or one that `except Exception` lets through.
  datatype Ran = Returned | Failed | Aborted

  datatype Method = Approval | ToolCall | Other

  // What the tracker does with a new request; without a tracker, nothing is reserved.
  datatype Tracker = NoTracker | Reserves | Breaks

  // What a reply says: what the handler returned, or that the request is declined or went wrong.
  datatype Reply = Result | Refusal

  datatype Event = Called | WriteFailed(reply: Reply) | Wrote(reply: Reply) | Finalized(sent: bool)

  /** The outside world during one request. `valid`: the approval handler's result is acceptable. */
  datatype Env = Env(tracker: Tracker, observer: bool, bound: bool, start: Ran, approvalHandler: bool,
                     serverHandler: bool, handler: Ran, valid: bool, write1: Ran, write2: Ran, event1: Ran, event2: Ran)

  // `_activity_enabled`
  predicate ActivityEnabled(env: Env) { env.tracker != NoTracker || env.observer }

  // ---------- What a request's history must show ----------

  predicate IsWrite(e: Event) { e.Wrote? || e.WriteFailed? }

  // A completed reply is the last one written.
  ghost predicate NoSecondReply(log: seq<Event>) {
    forall i, j :: 0 <= i < j < |log| && log[i].Wrote? ==> !IsWrite(log[j])
  }

  // The finalizer was told of a reply exactly when one was completed and none failed before.
  predicate Truthful(log: seq<Event>, k: nat)
    requires k < |log| && log[k].Finalized?
  {
    log[k].sent <==> SomeWrote(log[..k]) && !SomeFailed(log[..k])
  }

  predicate SomeWrote(log: seq<Event>) { exists i :: 0 <= i < |log| && log[i].Wrote? }

  predicate SomeFailed(log: seq<Event>) { exists i :: 0 <= i < |log| && log[i].WriteFailed? }

  ghost predicate FinalizedOnce(log: seq<Event>) {
    exists k: nat :: k < |log| && log[k].Finalized? && Truthful(log, k) &&
      forall j :: 0 <= j < |log| && log[j].Finalized? ==> j == k
  }

  predicate NeverFinalized(log: seq<Event>) { forall j :: 0 <= j < |log| ==> !log[j].Finalized? }

  // Some reply was written, or its writing failed.
  predicate Attempted(log: seq<Event>) { exists j :: 0 <= j < |log| && IsWrite(log[j]) }

  ghost predicate Settled(log: seq<Event>, tracked: bool) {
    NoSecondReply(log) && if tracked then FinalizedOnce(log) else NeverFinalized(log)
  }

  // The handler is called at most once, and before anything is written.
  predicate CalledFirst(log: seq<Event>) { forall i :: 0 < i < |log| ==> !log[i].Called? }

  /** The handler was called exactly if it is to be, and its result was written exactly if it was called,
      came back with an acceptable one, and the write went well; any other reply is a refusal. */
  predicate Handed(log: seq<Event>, env: Env, called: bool, valid: bool) {
    && CalledFirst(log) && (Called in log <==> called)
    && (Wrote(Result) in log <==> called && env.handler.Returned? && valid && env.write1.Returned?)
    && (WriteFailed(Result) in log <==> called && env.handler.Returned? && valid && !env.write1.Returned?)
  }

  lemma {:induction false} Ends(writes: seq<Event>, log: seq<Event>, tracked: bool, sent: bool)
    requires NeverFinalized(writes) && NoSecondReply(writes)
    requires log == if tracked then writes + [Finalized(sent)] else writes
    requires sent <==> SomeWrote(writes) && !SomeFailed(writes)
    ensures Settled(log, tracked)
    ensures Attempted(writes) ==> Attempted(log)
  {
    if tracked {
      var k := |writes|;
      assert log[k] == Finalized(sent) && log[..k] == writes;
      assert Truthful(log, k);
      forall j | 0 <= j < k ensures !log[j].Finalized? { assert log[j] == writes[j]; }
      if Attempted(writes) {
        var j :| 0 <= j < |writes| && IsWrite(writes[j]);
        assert IsWrite(log[j]);
      }
    }
  }

  // At most two writes, the second a refusal after a first that failed.
  predicate Written(parts: seq<Event>) {
    |parts| <= 2 && (|parts| > 0 ==> IsWrite(parts[0])) &&
    (|parts| == 2 ==> IsWrite(parts[1]) && parts[1].reply.Refusal? && parts[0].WriteFailed?)
  }

  // A call, or none, and then at most two writes, the second only after a first that failed.
  lemma {:induction false} Ended(parts: seq<Event>, log: seq<Event>, env: Env, called: bool, valid: bool, tracked: bool,
                                 sent: bool)
    requires Written(parts)
    requires var writes := (if called then [Called] else []) + parts;
      log == if tracked then writes + [Finalized(sent)] else writes
    requires sent <==> |parts| == 1 && parts[0].Wrote?
    requires called && env.handler.Returned? && valid <==> parts != [] && parts[0].reply.Result?
    requires parts != [] && parts[0].reply.Result? ==> (parts[0].Wrote? <==> env.write1.Returned?)
    ensures Settled(log, tracked) && Handed(log, env, called, valid)
    ensures parts != [] ==> Attempted(log)
  {
    var writes := (if called then [Called] else []) + parts;
    var first := if called then 1 else 0;
    forall i | 0 <= i < |parts| ensures writes[first + i] == parts[i] { }
    assert forall i :: 0 <= i < |writes| && writes[i].Wrote? ==> i == |writes| - 1;
    if parts != [] { assert writes[first] == parts[0] && IsWrite(writes[first]); }
    assert SomeWrote(writes) <==> parts != [] && parts[|parts| - 1].Wrote? by {
      if parts != [] { assert writes[|writes| - 1] == parts[|parts| - 1]; }
    }
    assert SomeFailed(writes) <==> parts != [] && parts[0].WriteFailed?;
    Ends(writes, log, tracked, sent);
    HandedBefore(parts, writes, env, called, valid);
    HandedAfter(writes, log, env, called, valid);
  }

  lemma {:induction false} HandedBefore(parts: seq<Event>, writes: seq<Event>, env: Env, called: bool, valid: bool)
    requires Written(parts)
    requires writes == (if called then [Called] else []) + parts
    requires called && env.handler.Returned? && valid <==> parts != [] && parts[0].reply.Result?
    requires parts != [] && parts[0].reply.Result? ==> (parts[0].Wrote? <==> env.write1.Returned?)
    ensures Handed(writes, env, called, valid)
  {
    var first := if called then 1 else 0;
    if called { assert writes[0] == Called; }
    if parts != [] { assert writes[first] == parts[0]; }
    if |parts| == 2 { assert writes[first + 1] == parts[1]; }
  }

  lemma {:induction false} HandedAfter(writes: seq<Event>, log: seq<Event>, env: Env, called: bool, valid: bool)
    requires Handed(writes, env, called, valid)
    requires log == writes || (exists sent :: log == writes + [Finalized(sent)])
    ensures Handed(log, env, called, valid)
  {
    if log != writes {
      var sent :| log == writes + [Finalized(sent)];
      assert forall e :: e in log <==> e in writes || e == Finalized(sent);
      assert forall i :: 0 <= i < |writes| ==> log[i] == writes[i];
    }
  }

  function Refused(write: Ran): Event { if write.Returned? then Wrote(Refusal) else WriteFailed(Refusal) }

  // ---------- One request ----------

  class ServerRequest {
    const hasId: bool
    const name: Method
    var completed: bool
    var log: seq<Event>

    constructor (hasId: bool, name: Method)
      ensures this.hasId == hasId && this.name == name && !completed && log == []
    {
      this.hasId, this.name := hasId, name;
      completed, log := false, [];
    }

    // `finish_once`; the tracker's own finalizer may raise, which stays inside.
    method FinishOnce(sent: bool)
      modifies this
      ensures completed
      ensures log == if old(completed) then old(log) else old(log) + [Finalized(sent)]
    {
      if completed { return; }
      completed := true;
      log := log + [Finalized(sent)];
    }

    // `finish` may be absent.
    method Finish(finish: bool, sent: bool)
      modifies this
      ensures completed == (old(completed) || finish)
      ensures log == if finish && !old(completed) then old(log) + [Finalized(sent)] else old(log)
    {
      if finish { FinishOnce(sent); }
    }

    method Write(reply: Reply, does: Ran)
      modifies this`log
      ensures log == old(log) + [if does.Returned? then Wrote(reply) else WriteFailed(reply)]
    {
      log := log + [if does.Returned? then Wrote(reply) else WriteFailed(reply)];
    }

    method Call()
      modifies this`log
      ensures log == old(log) + [Called]
    {
      log := log + [Called];
    }

    // `_emit_event`: a failing hook is contained when activity is tracked, or the child is bound.
    method EmitEvent(env: Env, does: Ran) returns (r: Ran)
      ensures r in {Returned, Aborted}
      ensures ActivityEnabled(env) ==> r == Returned
    {
      if does.Returned? || ActivityEnabled(env) || env.bound || does.Failed? { return Returned; }
      r := Aborted;
    }

    // `_reject_server_request`; the reply is its only write.
    method Reject(env: Env, finish: bool, write: Ran) returns (r: Ran)
      modifies this
      ensures r != Failed && completed == (old(completed) || finish)
      ensures log == old(log) + (if hasId then [Refused(write)] else []) +
                     (if finish && !old(completed) then [Finalized(hasId && write.Returned?)] else [])
    {
      if !hasId {
        Finish(finish, false);
        return Returned;
      }
      var responseSent := false;
      r := write;
      Write(Refusal, write);
      if write.Returned? { responseSent := true; }
      if write.Failed? { r := Returned; }
      if r.Returned? { r := EmitEvent(env, env.event1); }
      Finish(finish, responseSent);
    }

    // `_handle_approval_request_async`
    method HandleApproval(env: Env, finish: bool)
      requires log == [] && !completed
      modifies this
      ensures Settled(log, finish)
      ensures hasId && !(env.approvalHandler && env.handler.Aborted?) ==> Attempted(log)
      ensures Handed(log, env, hasId && env.approvalHandler, env.valid)
    {
      hide Settled, Handed, Attempted;
      ghost var parts := [];
      if !hasId {
        Finish(finish, false);
        Ended(parts, log, env, false, env.valid, finish, false);
        return;
      }
      var responseSent, writeStarted, deliveryUncertain := false, false, false;
      var r := Returned;
      if env.approvalHandler {
        Call();
        r := if env.handler.Returned? && !env.valid then Failed else env.handler;
      }
      if r.Returned? {
        writeStarted := true;
        Write(if env.approvalHandler then Result else Refusal, env.write1);
        parts := log[|log| - 1..];
        r := env.write1;
        if r.Returned? {
          responseSent := true;
          r := EmitEvent(env, env.event1);
        }
      }
      if r.Failed? {
        deliveryUncertain := writeStarted && !responseSent;
        Write(Refusal, env.write2);
        parts := parts + [Refused(env.write2)];
        r := env.write2;
        if r.Returned? { responseSent := true; }
        if r.Failed? {
          responseSent := false;
          r := Returned;
        }
        if r.Returned? { r := EmitEvent(env, env.event2); }
      }
      Finish(finish, responseSent && !deliveryUncertain);
      Ended(parts, log, env, env.approvalHandler, env.valid, finish, responseSent && !deliveryUncertain);
    }

    // Calling the handler and replying with its result, or with its error.
    method Serve(env: Env) returns (responseSent: bool, deliveryUncertain: bool, ghost parts: seq<Event>)
      requires log == [] && !completed
      modifies this`log
      ensures log == [Called] + parts && Written(parts)
      ensures responseSent && !deliveryUncertain <==> |parts| == 1 && parts[0].Wrote?
      ensures env.handler.Returned? <==> parts != [] && parts[0].reply.Result?
      ensures parts != [] && parts[0].reply.Result? ==> (parts[0].Wrote? <==> env.write1.Returned?)
      ensures env.handler.Aborted? <==> parts == []
    {
      var writeStarted := false;
      responseSent, deliveryUncertain, parts := false, false, [];
      Call();
      var r := env.handler;
      if r.Returned? {
        writeStarted := true;
        Write(Result, env.write1);
        parts := [if env.write1.Returned? then Wrote(Result) else WriteFailed(Result)];
        r := env.write1;
        if r.Returned? { responseSent := true; }
      }
      if r.Failed? {
        deliveryUncertain := writeStarted && !responseSent;
        Write(Refusal, env.write2);
        parts := parts + [Refused(env.write2)];
        r := env.write2;
        if r.Returned? { responseSent := true; }
        if r.Failed? { responseSent := false; }
      }
    }

    // `_handle_server_request_async`; any result of the handler can be sent.
    method HandleServer(env: Env, finish: bool)
      requires log == [] && !completed
      modifies this
      ensures Settled(log, finish)
      ensures hasId && !(env.serverHandler && env.handler.Aborted?) ==> Attempted(log)
      ensures Handed(log, env, hasId && env.serverHandler, true)
    {
      hide Settled, Handed, Attempted;
      if !hasId {
        Finish(finish, false);
        assert log == if finish then [Finalized(false)] else [];
        Ended([], log, env, false, true, finish, false);
        return;
      }
      if !env.serverHandler {
        var r := Reject(env, finish, env.write1);
        // The finalizer is dropped only when rejecting returned.
        Finish(finish && !r.Returned?, false);
        assert log == [Refused(env.write1)] + if finish then [Finalized(env.write1.Returned?)] else [];
        Ended([Refused(env.write1)], log, env, false, true, finish, env.write1.Returned?);
        return;
      }
      var responseSent, deliveryUncertain, parts := Serve(env);
      Finish(finish, responseSent && !deliveryUncertain);
      Ended(parts, log, env, true, true, finish, responseSent && !deliveryUncertain);
    }

    // `_track_server_request`: whether the request is accepted, and whether it has a finalizer.
    method Track(env: Env) returns (accepted: bool, finish: bool)
      ensures accepted == !env.tracker.Breaks? && finish == env.tracker.Reserves?
    {
      accepted, finish := !env.tracker.Breaks?, env.tracker.Reserves?;
    }

    // Who handles the request once its thread is started, if anyone.
    predicate HasHandler(env: Env) {
      (name.Approval? && env.approvalHandler) || (name.ToolCall? && env.serverHandler)
    }

    /** `_handle_message` for a request, with the handler thread it starts; a start that raises has
        started nothing. A request that is accepted and whose thread starts is handed to its handler once,
        and is answered with what that returns; every other reply is a refusal. A tracked request is
        finalized once and truthfully whatever fails, and no write follows a completed reply. Only a
        handler that lets a non-ordinary exception through, or a start that raises with no activity
        tracked, leaves a reply unattempted. */
    method HandleMessage(env: Env) returns (r: Ran)
      requires log == [] && !completed && hasId
      modifies this
      ensures NoSecondReply(log)
      ensures if env.tracker.Reserves? then FinalizedOnce(log) else NeverFinalized(log)
      ensures env.start.Returned? || ActivityEnabled(env) ==> Attempted(log) || env.handler.Aborted?
      ensures
        Handed(log, env, !env.tracker.Breaks? && env.start.Returned? && HasHandler(env), name.Approval? ==> env.valid)
    {
      hide Settled, Handed, Attempted;
      var accepted, finish := Track(env);
      ghost var reply := [Refused(env.write1)];
      SettledIs();
      if !accepted {
        r := Reject(env, false, env.write1);
        Ended(reply, log, env, false, name.Approval? ==> env.valid, false, env.write1.Returned?);
        return;
      }
      if name.Other? || (name.ToolCall? && !env.serverHandler) {
        r := Reject(env, finish, env.write1);
        Ended(reply, log, env, false, name.Approval? ==> env.valid, finish, env.write1.Returned?);
        return;
      }
      if env.start.Returned? {
        if name.Approval? { HandleApproval(env, finish); } else { HandleServer(env, finish); }
        return Returned;
      }
      if !ActivityEnabled(env) {
        Ended([], log, env, false, name.Approval? ==> env.valid, false, false);
        return env.start;
      }
      Finish(finish, false);
      r := Reject(env, false, env.write1);
      if finish {
        assert log == [Finalized(false)] + reply;
        NotStarted(log, env, name.Approval? ==> env.valid);
      } else {
        Ended(reply, log, env, false, name.Approval? ==> env.valid, false, env.write1.Returned?);
      }
    }
  }

  lemma SettledIs()
    ensures forall log, tracked :: Settled(log, tracked) ==>
      NoSecondReply(log) && if tracked then FinalizedOnce(log) else NeverFinalized(log)
  {
  }

  // A start that raised: the finalizer is told first, and then the request is declined.
  lemma {:induction false} NotStarted(log: seq<Event>, env: Env, valid: bool)
    requires log == [Finalized(false)] + [Refused(env.write1)]
    ensures Settled(log, true) && Handed(log, env, false, valid) && Attempted(log)
  {
    assert log[0] == Finalized(false) && log[1] == Refused(env.write1) && log[..0] == [];
    assert IsWrite(log[1]) && Truthful(log, 0);
  }
}
