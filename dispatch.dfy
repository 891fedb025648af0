/** The event loop of `connectionhandler`, from the initial sweep onwards,
    over a finite script of what each `wait_for_event` call returned. The
    setup before the sweep (login, virtual server, nickname, home channel)
    is not part of this model. */
module Dispatch {
  import opened Common
  import Blacklist
  import Joins
  import Sweep

  /** The timeout, in seconds, of every `wait_for_event` call. */
  const EVENT_TIMEOUT := 540

  /** The outcome of one `wait_for_event` call. */
  datatype Wait =
    | Received(event: Joins.Event)   // it returned a notification
    | TimedOut                       // it raised TS3TimeoutError
    | Interrupted                    // KeyboardInterrupt arrived while waiting

  /** Where the bot stands when the script has been used up. */
  datatype Status =
    | Running                  // still in the loop, about to send a keepalive
    | ShutDown                 // closed the connection and called `sys.exit`
    | Crashed(failure: Failure) // an exception escaped the loop

  /** Every command the bot sent, in order, and where it stands after them. */
  datatype Trace = Trace(issued: seq<Command>, status: Status)

  /** The start of every loop iteration: keepalive, then wait. */
  const POLL: seq<Command> := [SendKeepalive, WaitForEvent(EVENT_TIMEOUT)]

  /** What one iteration of the loop did: the commands it sent and, when it
      ended the loop, how. */
  datatype Round = Round(issued: seq<Command>, stop: Option<Status>)

  /** What the loop does with a notification: the bot registers
      `joinshandler` (see `Joins.JoinsHandler`). */
  type Handler = Joins.Event -> Exec

  /** One iteration of the `while True` loop: keepalive and wait; then a
      timeout goes round again, an interrupt closes the connection and stops,
      and an event goes to the handler, whose exceptions are not caught and
      end the loop. */
  function RoundRun(w: Wait, handle: Handler): (r: Round)
  {
    match w
    case Interrupted => Round(POLL + [Close], Some(ShutDown))
    case TimedOut => Round(POLL, None)
    case Received(e) =>
      var handled := handle(e);
      Round(POLL + handled.issued, if handled.raised.Some? then Some(Crashed(handled.raised.value)) else None)
  }

  /** The loop over the whole script: one iteration per outcome until one of
      them ends the loop. */
  function LoopRun(script: seq<Wait>, handle: Handler): (r: Trace)
    decreases |script|
  {
    if script == [] then Trace([], Running)
    else
      var round := RoundRun(script[0], handle);
      if round.stop.Some? then Trace(round.issued, round.stop.value)
      else
        var rest := LoopRun(script[1..], handle);
        Trace(round.issued + rest.issued, rest.status)
  }

  /** A handler that sends only `clientinfo` and moderation commands. */
  ghost predicate QueriesAndModerates(handle: Handler) {
    forall e, i :: 0 <= i < |handle(e).issued| ==>
      handle(e).issued[i].ClientInfo? || IsModeration(handle(e).issued[i])
  }

  /** `joinshandler` sends only `clientinfo` and moderation commands. */
  lemma JoinsHandlerQueriesAndModerates(directory: Joins.Directory, blacklists: Joins.Lookup,
                                        actions: Section)
    ensures QueriesAndModerates(Joins.JoinsHandler(directory, blacklists, actions))
  {
    forall e: Joins.Event {
      Joins.JoinRunShape(e, directory, blacklists, actions);
    }
  }

  /** Every `wait_for_event` in `cs` comes straight after a keepalive and
      carries the 540-second timeout. */
  predicate WaitsPolled(cs: seq<Command>) {
    forall i :: 0 <= i < |cs| && cs[i].WaitForEvent? ==>
      0 < i && cs[i - 1] == SendKeepalive && cs[i] == WaitForEvent(EVENT_TIMEOUT)
  }

  lemma WaitsPolledConcat(a: seq<Command>, b: seq<Command>)
    requires WaitsPolled(a) && WaitsPolled(b)
    ensures WaitsPolled(a + b)
  {
    forall i | 0 <= i < |a + b| && (a + b)[i].WaitForEvent?
      ensures 0 < i && (a + b)[i - 1] == SendKeepalive && (a + b)[i] == WaitForEvent(EVENT_TIMEOUT)
    {
      if i >= |a| {
        assert (a + b)[i] == b[i - |a|];
        assert (a + b)[i - 1] == b[i - |a| - 1];
      }
    }
  }

  /** Every `wait_for_event` the loop sends comes straight after a keepalive,
      and with the 540-second timeout. */
  lemma {:induction false} KeepaliveBeforeEveryWait(script: seq<Wait>, handle: Handler)
    requires QueriesAndModerates(handle)
    ensures WaitsPolled(LoopRun(script, handle).issued)
    decreases |script|
  {
    if script != [] {
      assert WaitsPolled(POLL);
      match script[0]
      case Interrupted =>
        WaitsPolledConcat(POLL, [Close]);
      case TimedOut =>
        KeepaliveBeforeEveryWait(script[1..], handle);
        WaitsPolledConcat(POLL, LoopRun(script[1..], handle).issued);
      case Received(e) =>
        var handled := handle(e);
        WaitsPolledConcat(POLL, handled.issued);
        if handled.raised.None? {
          KeepaliveBeforeEveryWait(script[1..], handle);
          WaitsPolledConcat(POLL + handled.issued, LoopRun(script[1..], handle).issued);
        }
    }
  }

  /** No `close` among the commands `cs`. */
  predicate NeverClosed(cs: seq<Command>) {
    forall i :: 0 <= i < |cs| ==> cs[i] != Close
  }

  /** `cs` ends with `close` and sends it nowhere else. */
  predicate ClosedOnceAtEnd(cs: seq<Command>) {
    |cs| > 0 && cs[|cs| - 1] == Close && NeverClosed(cs[..|cs| - 1])
  }

  lemma ClosedOnceAfter(a: seq<Command>, b: seq<Command>)
    requires NeverClosed(a)
    ensures NeverClosed(b) ==> NeverClosed(a + b)
    ensures ClosedOnceAtEnd(b) ==> ClosedOnceAtEnd(a + b)
  {
    if ClosedOnceAtEnd(b) {
      assert (a + b)[..|a + b| - 1] == a + b[..|b| - 1];
    }
  }

  /** The loop closes the connection only when it is interrupted, and then
      as its last command; a crash leaves closing to the `with` block. */
  lemma {:induction false} LoopClosesOnlyOnInterrupt(script: seq<Wait>, handle: Handler)
    requires QueriesAndModerates(handle)
    ensures var r := LoopRun(script, handle);
      (r.status == ShutDown ==> ClosedOnceAtEnd(r.issued))
      && (r.status != ShutDown ==> NeverClosed(r.issued))
    decreases |script|
  {
    if script != [] {
      assert NeverClosed(POLL);
      match script[0]
      case Interrupted =>
        assert (POLL + [Close])[..2] == POLL;
      case TimedOut =>
        LoopClosesOnlyOnInterrupt(script[1..], handle);
        ClosedOnceAfter(POLL, LoopRun(script[1..], handle).issued);
      case Received(e) =>
        var handled := handle(e);
        ClosedOnceAfter(POLL, handled.issued);
        if handled.raised.None? {
          LoopClosesOnlyOnInterrupt(script[1..], handle);
          ClosedOnceAfter(POLL + handled.issued, LoopRun(script[1..], handle).issued);
        }
    }
  }

  /** Running a script and then another is running the two one after the
      other, as long as the first leaves the loop running. */
  lemma {:induction false} LoopRunAppend(first: seq<Wait>, second: seq<Wait>, handle: Handler)
    requires LoopRun(first, handle).status == Running
    ensures LoopRun(first + second, handle) ==
      Trace(LoopRun(first, handle).issued
              + LoopRun(second, handle).issued,
            LoopRun(second, handle).status)
    decreases |first|
  {
    if first == [] {
      assert first + second == second;
    } else {
      var both := first + second;
      assert both[0] == first[0];
      assert both[1..] == first[1..] + second;
      LoopRunAppend(first[1..], second, handle);
    }
  }

  /** An interrupt, wherever it comes in a running loop, sends a keepalive,
      the wait and `close`, and ends the loop: nothing after it runs. */
  lemma InterruptEndsLoop(before: seq<Wait>, after: seq<Wait>, handle: Handler)
    requires LoopRun(before, handle).status == Running
    ensures LoopRun(before + [Interrupted] + after, handle) ==
      Trace(LoopRun(before, handle).issued + POLL + [Close], ShutDown)
  {
    var tail := [Interrupted] + after;
    assert before + [Interrupted] + after == before + tail;
    assert tail[0] == Interrupted;
    LoopRunAppend(before, tail, handle);
  }

  /** A script that starts with an event: keepalive, wait, the handler's
      commands, then the rest of the script unless the handler raised. */
  lemma LoopRunReceived(e: Joins.Event, after: seq<Wait>, handle: Handler)
    ensures LoopRun([Received(e)] + after, handle) ==
      if handle(e).raised.Some? then Trace(POLL + handle(e).issued, Crashed(handle(e).raised.value))
      else Trace(POLL + handle(e).issued + LoopRun(after, handle).issued, LoopRun(after, handle).status)
  {
    var tail := [Received(e)] + after;
    assert tail[0] == Received(e) && tail[1..] == after;
  }

  lemma ConcatRegroup(a: seq<Command>, b: seq<Command>, c: seq<Command>, d: seq<Command>)
    ensures a + (b + c + d) == a + b + c + d
  {
  }

  /** An event in a running loop goes to the handler after the keepalive and
      the wait: an exception from the handler ends the loop with that
      exception, otherwise the loop goes on with the rest of the script. */
  lemma EventGoesToHandler(before: seq<Wait>, e: Joins.Event, after: seq<Wait>, handle: Handler)
    requires LoopRun(before, handle).status == Running
    ensures var r := LoopRun(before + [Received(e)] + after, handle);
      var done := LoopRun(before, handle).issued + POLL + handle(e).issued;
      if handle(e).raised.Some? then r == Trace(done, Crashed(handle(e).raised.value))
      else r == Trace(done + LoopRun(after, handle).issued, LoopRun(after, handle).status)
  {
    var tail := [Received(e)] + after;
    assert before + [Received(e)] + after == before + tail;
    LoopRunAppend(before, tail, handle);
    LoopRunReceived(e, after, handle);
    var first := LoopRun(before, handle).issued;
    var handled := handle(e);
    if handled.raised.None? {
      ConcatRegroup(first, POLL, handled.issued, LoopRun(after, handle).issued);
    } else {
      assert first + (POLL + handled.issued) == first + POLL + handled.issued;
    }
  }

  /** The loop shuts down only because the script holds an interrupt, and
      crashes only with the exception the handler raised for one of the
      script's events. */
  lemma {:induction false} StopsOnlyOnInterruptOrRaise(script: seq<Wait>, handle: Handler)
    ensures LoopRun(script, handle).status == ShutDown ==>
      exists i :: 0 <= i < |script| && script[i] == Interrupted
    ensures LoopRun(script, handle).status.Crashed? ==>
      exists i :: 0 <= i < |script| && script[i].Received?
        && handle(script[i].event).raised == Some(LoopRun(script, handle).status.failure)
    decreases |script|
  {
    if script != [] && RoundRun(script[0], handle).stop.None? {
      StopsOnlyOnInterruptOrRaise(script[1..], handle);
      var rest := LoopRun(script[1..], handle);
      if rest.status == ShutDown {
        var i :| 0 <= i < |script[1..]| && script[1..][i] == Interrupted;
        assert script[i + 1] == Interrupted;
      }
      if rest.status.Crashed? {
        var i :| 0 <= i < |script[1..]| && script[1..][i].Received?
          && handle(script[1..][i].event).raised == Some(rest.status.failure);
        assert script[i + 1] == script[1..][i];
      }
    }
  }

  /** `n` keepalive-and-wait rounds. */
  function Polls(n: nat): (cs: seq<Command>)
    ensures |cs| == 2 * n
  {
    if n == 0 then [] else POLL + Polls(n - 1)
  }

  /** `n` timeouts in a row: `n` keepalive-and-wait rounds, then whatever the
      rest of the script does. */
  lemma {:induction false} TimeoutsOnlyPoll(n: nat, rest: seq<Wait>, handle: Handler)
    ensures LoopRun(seq(n, _ => TimedOut) + rest, handle) ==
      Trace(Polls(n) + LoopRun(rest, handle).issued,
            LoopRun(rest, handle).status)
  {
    var script := seq(n, _ => TimedOut) + rest;
    if n == 0 {
      assert script == rest;
    } else {
      assert script[0] == TimedOut;
      assert script[1..] == seq(n - 1, _ => TimedOut) + rest;
      TimeoutsOnlyPoll(n - 1, rest, handle);
    }
  }

  /** An event that is not about a group-8 client changes nothing but the
      keepalive and wait before it. */
  predicate Ignored(w: Wait) {
    w.Received? ==> Joins.JoinFilter(w.event) == Ok(None)
  }

  /** While no event concerns a group-8 client, the loop bans and kicks
      nobody and never crashes. */
  lemma {:induction false} IgnoredEventsNeverModerate(script: seq<Wait>, directory: Joins.Directory,
                                                      blacklists: Joins.Lookup, actions: Section)
    requires forall i :: 0 <= i < |script| ==> Ignored(script[i])
    ensures NoModeration(LoopRun(script, Joins.JoinsHandler(directory, blacklists, actions)).issued)
    ensures !LoopRun(script, Joins.JoinsHandler(directory, blacklists, actions)).status.Crashed?
    decreases |script|
  {
    if script != [] {
      assert Ignored(script[0]);
      match script[0]
      case Interrupted =>
        assert NoModeration(POLL + [Close]);
      case TimedOut =>
        IgnoredEventsNeverModerate(script[1..], directory, blacklists, actions);
      case Received(e) =>
        IgnoredEventsNeverModerate(script[1..], directory, blacklists, actions);
        assert Joins.JoinsHandler(directory, blacklists, actions)(e) == Exec([], None);
        assert POLL + [] == POLL;
    }
  }

  /** From the initial sweep to the end of the script: `checkall`,
      `servernotifyregister`, then the loop; an exception that escapes the
      sweep or the loop leaves the `with` block, which closes the connection.
      Leaving it after the interrupt's own `close` sends nothing more, since
      the connection is already closed. */
  function SessionRun(online: seq<ClientId>, directory: Joins.Directory, script: seq<Wait>,
                      handle: Handler): (r: Trace)
  {
    var swept := Sweep.CheckAllRun(online, directory);
    if swept.raised.Some? then Trace(swept.issued + [Close], Crashed(swept.raised.value))
    else
      var loop := LoopRun(script, handle);
      Trace(swept.issued + [ServerNotifyRegister] + loop.issued
              + (if loop.status.Crashed? then [Close] else []),
            loop.status)
  }

  /** The connection is closed on every way out (interrupt or exception),
      exactly once and as the last command, and never while the loop runs. */
  lemma SessionClosedOnEveryExit(online: seq<ClientId>, directory: Joins.Directory, script: seq<Wait>,
                                 handle: Handler)
    requires QueriesAndModerates(handle)
    ensures var r := SessionRun(online, directory, script, handle);
      (r.status != Running ==> ClosedOnceAtEnd(r.issued))
      && (r.status == Running ==> NeverClosed(r.issued))
  {
    var r := SessionRun(online, directory, script, handle);
    var swept := Sweep.CheckAllRun(online, directory);
    Sweep.CheckAllNeverModerates(online, directory);
    assert NeverClosed(swept.issued) by {
      forall i | 0 <= i < |swept.issued| ensures swept.issued[i] != Close {
        if i > 0 {
          assert swept.issued[i] == ClientInfo(online[i - 1]);
        }
      }
    }
    if swept.raised.Some? {
      ClosedOnceAfter(swept.issued, [Close]);
      assert r.issued == swept.issued + [Close];
    } else {
      var loop := LoopRun(script, handle);
      LoopClosesOnlyOnInterrupt(script, handle);
      var head := swept.issued + [ServerNotifyRegister];
      ClosedOnceAfter(swept.issued, [ServerNotifyRegister]);
      ClosedOnceAfter(head, loop.issued);
      if loop.status.Crashed? {
        ClosedOnceAfter(head + loop.issued, [Close]);
        assert r.issued == head + loop.issued + [Close];
      } else {
        assert r.issued == head + loop.issued;
      }
    }
  }
}
