// The life of a session's connection: the reconnect loop, the failure path and the teardown that
// closes the call record and schedules its CDR.
module SessionLifecycle {
  import opened Models
  import Breaker
  import PM = PhaseMachine
  import ToolCatalog
  import opened Registry

  const MAX_RECONNECTS := 3

  // How one pass of the connect loop ends, as the network decides.
  datatype Ending =
    | CleanExit        // the event loop ran out of messages
    | Lost             // ConnectionClosed
    | StatusRejected   // the handshake was answered with an error status
    | OtherError

  // `connected`: the socket opened and the phase was entered. `closing`: close() had been called by the end,
  // which came at time `at`. `events`: what happens to the conversation from the opening until the next
  // attempt, through the event loop or through handlers still at work.
  datatype Attempt = Attempt(connected: bool, closing: bool, ending: Ending, at: int, events: seq<PM.Event>)

  // The record the session starts from, and the configured limits.
  datatype Opening = Opening(call: Option<PM.CallRecord>, st: PM.Settings)

  // A handshake error comes without an open socket, and the event loop's end with one. Only the loop itself
  // reconnects.
  predicate Plausible(a: Attempt) {
    && (a.ending.CleanExit? ==> a.connected)
    && (a.ending.StatusRejected? ==> !a.connected)
    && PM.Reconnect !in a.events
  }

  datatype Report = Report(
    connections: nat,               // sockets opened
    entered: seq<ConvPhase>,        // phases entered on opening
    fsm: Option<PM.Core>,           // the conversation, once there is an FSM
    wsErrors: seq<int>,             // times of the errors recorded
    failures: seq<int>,             // times of the reconnect failures recorded
    stopped: bool)

  const FRESH := Report(0, [], None, [], [], false)

  function Drive(c: PM.Core, events: seq<PM.Event>, st: PM.Settings): PM.Core {
    if events == [] then c
    else PM.Apply(Drive(c, events[..|events| - 1], st), events[|events| - 1], st).core
  }

  // The conversation as a socket opens: a new one in GREETING on the first attempt, afterwards the one there
  // is, entering its own phase again. None is the exception of reading the phase of no FSM.
  function Opened(x: Opening, r: Report, k: nat): Option<PM.Core> {
    if k == 0 then Some(PM.Start(x.call))
    else if r.fsm.Some? then Some(PM.Apply(r.fsm.value, PM.Reconnect, x.st).core)
    else None
  }

  // One pass. Reconnecting before the first connection ever opened ends in the catch-all handler.
  function Pass(x: Opening, r: Report, a: Attempt, k: nat): Report {
    var counted := if a.connected then r.(connections := r.connections + 1) else r;
    var fsm := if a.connected then Opened(x, r, k) else r.fsm;
    if a.connected && fsm.None? then counted.(wsErrors := r.wsErrors + [a.at], stopped := true)
    else
      var open := counted.(
        entered := if a.connected then r.entered + [fsm.value.phase] else r.entered,
        fsm := if fsm.Some? then Some(Drive(fsm.value, a.events, x.st)) else None);
      var failed := open.(wsErrors := open.wsErrors + [a.at]);
      match a.ending
      case CleanExit => open.(stopped := true)
      case Lost =>
        if a.closing then open.(stopped := true)
        else if k < MAX_RECONNECTS then failed
        else failed.(failures := failed.failures + [a.at], stopped := true)
      case StatusRejected => failed.(failures := failed.failures + [a.at], stopped := true)
      case OtherError => failed.(stopped := true)
  }

  // The loop after k passes.
  function Passes(x: Opening, attempts: seq<Attempt>, k: nat): Report
    requires k <= |attempts|
  {
    if k == 0 then FRESH
    else
      var before := Passes(x, attempts, k - 1);
      if before.stopped then before else Pass(x, before, attempts[k - 1], k - 1)
  }

  // The pass ended in a lost connection nobody asked for.
  predicate Dropped(attempts: seq<Attempt>, k: nat)
    requires k < |attempts|
  {
    var a := attempts[k];
    a.ending.Lost? && !a.closing && (a.connected && k > 0 ==> exists j :: 0 <= j < k && attempts[j].connected)
  }

  // After k passes the loop is still running exactly when each of them was dropped and a retry is left.
  lemma {:induction false} RunningIff(x: Opening, attempts: seq<Attempt>, k: nat)
    requires k <= |attempts| == MAX_RECONNECTS + 1
    requires forall i :: 0 <= i < |attempts| ==> Plausible(attempts[i])
    ensures var r := Passes(x, attempts, k);
      && r.connections <= k && |r.wsErrors| <= k
      && (!r.stopped ==> |r.wsErrors| == k && (r.fsm.Some? <==> exists j :: 0 <= j < k && attempts[j].connected))
      && (!r.stopped <==> k <= MAX_RECONNECTS && forall j :: 0 <= j < k ==> Dropped(attempts, j))
  {
    hide PM.Apply, PM.Start, Drive;
    if k > 0 {
      RunningIff(x, attempts, k - 1);
      assert (forall j :: 0 <= j < k ==> Dropped(attempts, j)) <==>
        (forall j :: 0 <= j < k - 1 ==> Dropped(attempts, j)) && Dropped(attempts, k - 1);
    }
  }

  lemma {:induction false} FailuresIff(x: Opening, attempts: seq<Attempt>, k: nat)
    requires k <= |attempts| == MAX_RECONNECTS + 1
    requires forall i :: 0 <= i < |attempts| ==> Plausible(attempts[i])
    ensures |Passes(x, attempts, k).failures| == (if exists n :: 0 <= n < k && GivesUp(attempts, n) then 1 else 0)
  {
    hide PM.Apply, PM.Start, Drive;
    if k > 0 {
      FailuresIff(x, attempts, k - 1);
      RunningIff(x, attempts, k - 1);
      if Passes(x, attempts, k - 1).stopped {
        assert !GivesUp(attempts, k - 1);
      } else {
        forall n | 0 <= n < k - 1
          ensures !GivesUp(attempts, n)
        {
          assert Dropped(attempts, n);
        }
        assert |Passes(x, attempts, k - 1).failures| == 0;
        assert |Passes(x, attempts, k).failures| == (if GivesUp(attempts, k - 1) then 1 else 0);
      }
    }
  }

  // Pass n is reached and gives up: its handshake is rejected, or it is the last and is dropped.
  predicate GivesUp(attempts: seq<Attempt>, n: nat)
    requires n < |attempts| == MAX_RECONNECTS + 1
  {
    && (forall j :: 0 <= j < n ==> Dropped(attempts, j))
    && (attempts[n].ending.StatusRejected? || (n == MAX_RECONNECTS && Dropped(attempts, n)))
  }

  // The pass ends in an error the channel records: not in a clean exit, and not in a close that was asked for.
  predicate Errs(attempts: seq<Attempt>, n: nat)
    requires n < |attempts|
  {
    var a := attempts[n];
    || (a.connected && n > 0 && forall j :: 0 <= j < n ==> !attempts[j].connected)
    || !(a.ending.CleanExit? || (a.ending.Lost? && a.closing))
  }

  // The times of the errors of the passes reached, and of giving up.
  function ErrorTimes(attempts: seq<Attempt>, k: nat): seq<int>
    requires k <= |attempts|
  {
    if k == 0 then []
    else
      ErrorTimes(attempts, k - 1)
      + (if (forall j :: 0 <= j < k - 1 ==> Dropped(attempts, j)) && Errs(attempts, k - 1) then [attempts[k - 1].at]
         else [])
  }

  function FailureTimes(attempts: seq<Attempt>, k: nat): seq<int>
    requires k <= |attempts| == MAX_RECONNECTS + 1
  {
    if k == 0 then []
    else FailureTimes(attempts, k - 1) + (if GivesUp(attempts, k - 1) then [attempts[k - 1].at] else [])
  }

  // The sockets opened by the passes reached.
  function SocketsOpened(attempts: seq<Attempt>, k: nat): nat
    requires k <= |attempts|
  {
    if k == 0 then 0
    else
      SocketsOpened(attempts, k - 1)
      + (if (forall j :: 0 <= j < k - 1 ==> Dropped(attempts, j)) && attempts[k - 1].connected then 1 else 0)
  }

  lemma PassRecords(x: Opening, r: Report, attempts: seq<Attempt>, k: nat)
    requires k < |attempts| == MAX_RECONNECTS + 1 && Plausible(attempts[k])
    requires forall j :: 0 <= j < k ==> Dropped(attempts, j)
    requires r.fsm.Some? <==> exists j :: 0 <= j < k && attempts[j].connected
    ensures var a, t := attempts[k], Pass(x, r, attempts[k], k);
      && t.wsErrors == r.wsErrors + (if Errs(attempts, k) then [a.at] else [])
      && t.failures == r.failures + (if GivesUp(attempts, k) then [a.at] else [])
      && t.connections == r.connections + (if a.connected then 1 else 0)
  {
    hide PM.Apply, PM.Start, Drive;
  }

  // Every error and every failure is recorded, at the time of its pass, and nothing else is.
  lemma {:induction false} RecordedTimes(x: Opening, attempts: seq<Attempt>, k: nat)
    requires k <= |attempts| == MAX_RECONNECTS + 1
    requires forall i :: 0 <= i < |attempts| ==> Plausible(attempts[i])
    ensures Passes(x, attempts, k).wsErrors == ErrorTimes(attempts, k)
    ensures Passes(x, attempts, k).failures == FailureTimes(attempts, k)
    ensures Passes(x, attempts, k).connections == SocketsOpened(attempts, k)
  {
    hide PM.Apply, PM.Start, Drive, Pass, Plausible, Dropped, Errs;
    if k > 0 {
      RecordedTimes(x, attempts, k - 1);
      RunningIff(x, attempts, k - 1);
      var r := Passes(x, attempts, k - 1);
      if !r.stopped {
        PassRecords(x, r, attempts, k - 1);
      }
    }
  }

  // For every sequence of connection outcomes: at most four connections, at most one recorded failure,
  // and that one exactly when a handshake is rejected or the fourth connection drops too.
  lemma ReconnectsAreBounded(x: Opening, attempts: seq<Attempt>)
    requires |attempts| == 4 && forall i :: 0 <= i < |attempts| ==> Plausible(attempts[i])
    ensures var r := Passes(x, attempts, |attempts|);
      && r.stopped && r.connections <= 4 && |r.failures| <= 1 && |r.wsErrors| <= 4
      && (|r.failures| == 1 <==> exists n :: 0 <= n < |attempts| && GivesUp(attempts, n))
  {
    RunningIff(x, attempts, |attempts|);
    FailuresIff(x, attempts, |attempts|);
  }

  // ---- The conversation through the reconnects ----

  lemma {:induction false} DriveKeepsHealth(c: PM.Core, events: seq<PM.Event>, st: PM.Settings)
    requires PM.Healthy(c, st) && PM.Reconnect !in events
    ensures PM.Healthy(Drive(c, events, st), st)
    ensures PM.Count(Drive(c, events, st).history, PM.Reconnected) == PM.Count(c.history, PM.Reconnected)
  {
    hide PM.Apply, PM.Healthy, PM.Count;
    if events != [] {
      var n := |events| - 1;
      DriveKeepsHealth(c, events[..n], st);
      PM.StepKeepsHealth(Drive(c, events[..n], st), events[n], st);
      PM.ReconnectCounts(Drive(c, events[..n], st), events[n], st);
    }
  }

  // After every pass the conversation meets all its invariants, and has reconnected once less often than
  // sockets were opened.
  lemma {:induction false} FsmIsHealthy(x: Opening, attempts: seq<Attempt>, k: nat)
    requires k <= |attempts| == MAX_RECONNECTS + 1 && PM.IsNewCall(x.call)
    requires forall i :: 0 <= i < |attempts| ==> Plausible(attempts[i])
    ensures var r := Passes(x, attempts, k);
      r.fsm.Some? ==>
        PM.Healthy(r.fsm.value, x.st) && PM.Count(r.fsm.value.history, PM.Reconnected) < r.connections
  {
    hide PM.Healthy, PM.Apply, PM.Start, Drive;
    if k > 0 {
      FsmIsHealthy(x, attempts, k - 1);
      var r, a := Passes(x, attempts, k - 1), attempts[k - 1];
      var fsm := if a.connected then Opened(x, r, k - 1) else r.fsm;
      if fsm.Some? && !r.stopped {
        if a.connected {
          OpenedIsHealthy(x, r, k - 1);
        }
        DriveKeepsHealth(fsm.value, a.events, x.st);
      }
    }
  }

  lemma OpenedIsHealthy(x: Opening, r: Report, k: nat)
    requires PM.IsNewCall(x.call) && Opened(x, r, k).Some?
    requires k > 0 ==> r.fsm.Some? && PM.Healthy(r.fsm.value, x.st)
    ensures PM.Healthy(Opened(x, r, k).value, x.st)
    ensures PM.Count(Opened(x, r, k).value.history, PM.Reconnected) ==
      if k == 0 then 0 else PM.Count(r.fsm.value.history, PM.Reconnected) + 1
  {
    hide PM.Healthy, PM.Apply;
    if k == 0 {
      PM.StartIsHealthy(x.call, x.st);
      assert PM.Start(x.call).history == [PM.Entered(Greeting)];
    } else {
      PM.StepKeepsHealth(r.fsm.value, PM.Reconnect, x.st);
      PM.ReconnectCounts(r.fsm.value, PM.Reconnect, x.st);
    }
  }

  // The phase survives each reconnect: for every sequence of outcomes and of conversation events, when a
  // later attempt opens a socket, the conversation is the one those events led to. It enters the very phase
  // it is in, with its record and its offer unchanged. Without an FSM nothing is entered, and the loop stops.
  lemma PhaseSurvivesReconnects(x: Opening, attempts: seq<Attempt>, k: nat)
    requires 0 < k < |attempts| == MAX_RECONNECTS + 1 && PM.IsNewCall(x.call)
    requires forall i :: 0 <= i < |attempts| ==> Plausible(attempts[i])
    requires !Passes(x, attempts, k).stopped && attempts[k].connected
    ensures var before, after := Passes(x, attempts, k), Passes(x, attempts, k + 1);
      if exists j :: 0 <= j < k && attempts[j].connected
      then
        && before.fsm.Some? && Opened(x, before, k).Some?
        && (var c, d := before.fsm.value, Opened(x, before, k).value;
            && after.entered == before.entered + [c.phase]
            && d.phase == c.phase && d.call == c.call && d.offered == c.offered
            && after.fsm == Some(Drive(d, attempts[k].events, x.st)))
      else after.entered == before.entered == [] && after.stopped
  {
    hide ToolCatalog.ToolList, Drive;
    RunningIff(x, attempts, k);
    FsmIsHealthy(x, attempts, k);
    NothingEntered(x, attempts, k);
  }

  lemma {:induction false} NothingEntered(x: Opening, attempts: seq<Attempt>, k: nat)
    requires k <= |attempts|
    ensures Passes(x, attempts, k).fsm.None? ==> Passes(x, attempts, k).entered == []
  {
    hide PM.Apply, PM.Start, Drive;
    if k > 0 {
      NothingEntered(x, attempts, k - 1);
    }
  }

  // Reconnect limit and turn budget together: with m = max(max_turns, 1) and k loopbacks, the end of the
  // session has been requested once 4m+6 + k(2m+5) + 3(max(m,4)-1) responses have completed, however often
  // the connection was lost.
  lemma CallIsBounded(x: Opening, attempts: seq<Attempt>)
    requires |attempts| == MAX_RECONNECTS + 1 && PM.IsNewCall(x.call)
    requires forall i :: 0 <= i < |attempts| ==> Plausible(attempts[i])
    ensures var fsm := Passes(x, attempts, |attempts|).fsm;
      var m := PM.Max(x.st.maxTurnsPerPhase, 1);
      fsm.Some? && PM.Count(fsm.value.history, PM.Turn) >=
        4 * m + 6 + PM.Count(fsm.value.history, PM.LoopedBack) * (2 * m + 5) + 3 * (PM.Max(m, 4) - 1)
      ==> PM.EndRequested in fsm.value.history
  {
    hide PM.Count, PM.Max, PM.WithinBudget, Passes;
    FsmIsHealthy(x, attempts, |attempts|);
    ReconnectsAreBounded(x, attempts);
    var fsm := Passes(x, attempts, |attempts|).fsm;
    var m := PM.Max(x.st.maxTurnsPerPhase, 1);
    if fsm.Some? && PM.Count(fsm.value.history, PM.Turn) >=
         4 * m + 6 + PM.Count(fsm.value.history, PM.LoopedBack) * (2 * m + 5) + 3 * (PM.Max(m, 4) - 1)
    {
      PM.BudgetCapped(fsm.value, x.st, 3);
    }
  }

  // ---- Open breakers and sessions that gave up ----

  // The timestamps one session has left among all recorded failures.
  function LeftBy(failures: seq<Breaker.Failure>, session: nat): seq<int> {
    if failures == [] then []
    else
      var n := |failures| - 1;
      LeftBy(failures[..n], session) + (if failures[n].session == session then [failures[n].time] else [])
  }

  lemma {:induction false} LeftTwice(failures: seq<Breaker.Failure>, i: nat, j: nat)
    requires i < j < |failures| && failures[i].session == failures[j].session
    ensures |LeftBy(failures, failures[i].session)| >= 2
    decreases |failures|
  {
    var n := |failures| - 1;
    if j < n {
      LeftTwice(failures[..n], i, j);
    } else {
      LeftOnce(failures[..n], i);
    }
  }

  lemma {:induction false} LeftOnce(failures: seq<Breaker.Failure>, i: nat)
    requires i < |failures|
    ensures |LeftBy(failures, failures[i].session)| >= 1
    decreases |failures|
  {
    var n := |failures| - 1;
    if i < n {
      LeftOnce(failures[..n], i);
    }
  }

  // What the sessions of a process record is what their loops report, in whatever order they interleave.
  ghost predicate RecordedBy(failures: seq<Breaker.Failure>, openings: seq<Opening>, runs: seq<seq<Attempt>>) {
    && |openings| == |runs|
    && (forall f :: f in failures ==> f.session < |runs|)
    && forall i :: 0 <= i < |runs| ==>
         && |runs[i]| == MAX_RECONNECTS + 1
         && (forall j :: 0 <= j < |runs[i]| ==> Plausible(runs[i][j]))
         && LeftBy(failures, i) == Passes(openings[i], runs[i], |runs[i]|).failures
  }

  // An open breaker means that at least `threshold` sessions recorded a failure within the window, and each
  // of these gave up on its connection: no session counts twice, because its loop records at most one.
  lemma OpenBreakerMeansSessionsGaveUp(failures: seq<Breaker.Failure>, openings: seq<Opening>, runs: seq<seq<Attempt>>,
                                       now: int, threshold: int, window: int, cooldown: int)
    requires RecordedBy(failures, openings, runs)
    requires Breaker.CircuitOpen(
      LastN(Breaker.Times(failures), Breaker.FAILURE_HISTORY), now, threshold, window, cooldown) == Some(true)
    ensures var sessions := Breaker.FailedWithin(failures, now, window);
      && |sessions| >= threshold
      && (forall i :: i in sessions ==> i < |runs| && |runs[i]| == MAX_RECONNECTS + 1
                                        && exists n :: 0 <= n < |runs[i]| && GivesUp(runs[i], n))
  {
    hide Passes, GivesUp, LeftBy, Breaker.CircuitOpen, Breaker.Times;
    forall i, j | 0 <= i < j < |failures|
      ensures failures[i].session != failures[j].session
    {
      var session := failures[i].session;
      assert failures[i] in failures;
      ReconnectsAreBounded(openings[session], runs[session]);
      if session == failures[j].session {
        LeftTwice(failures, i, j);
      }
    }
    Breaker.OpenMeansSessionsFailed(failures, now, threshold, window, cooldown);
    forall i | i in Breaker.FailedWithin(failures, now, window)
      ensures i < |runs| && |runs[i]| == MAX_RECONNECTS + 1 && exists n :: 0 <= n < |runs[i]| && GivesUp(runs[i], n)
    {
      var f :| f in failures && f.session == i;
      var k :| 0 <= k < |failures| && failures[k] == f;
      LeftOnce(failures, k);
      ReconnectsAreBounded(openings[i], runs[i]);
    }
  }

  // ---- The record's last fields ----

  datatype Final = Final(
    state: CallState, hangupCause: Option<string>, answeredAt: Option<int>, endedAt: Option<int>, duration: Option<int>)

  function Closed(f: Final, cause: Option<string>, now: int): Final {
    f.(state := Ended, endedAt := Some(now), hangupCause := cause,
       duration := if f.answeredAt.Some? then Some(now - f.answeredAt.value) else f.duration)
  }

  // hangup() after its request succeeded.
  function HungUp(f: Final, now: int): Final {
    Closed(f, Some("normal"), now)
  }

  // What teardown leaves, and how many CALL_ENDED messages it publishes on the way.
  datatype Teardown = Teardown(record: Final, published: nat)

  // After a transfer the original leg is hung up after a delay; if that request fails the record is
  // closed as transferred all the same.
  function TornDown(f: Final, hangupOk: bool, hangupAt: int, now: int): Teardown {
    if f.state.Transferring? then
      Teardown(if hangupOk then HungUp(f, hangupAt) else Closed(f, Some("transferred"), now), 1)
    else if f.state.Ended? || f.state.Failed? then Teardown(f, 0)
    else
      var cause := if f.hangupCause.None? || f.hangupCause.value == "" then Some("normal") else f.hangupCause;
      Teardown(Closed(f, cause, now), 1)
  }

  // The record always ends ENDED or FAILED. It is announced, and gets an end time from teardown,
  // exactly when it was not closed before: a conversation that wrapped up normally was, without either.
  // A cause set before is kept, except that of a transfer; the duration counts from the answer.
  lemma TeardownCloses(f: Final, hangupOk: bool, hangupAt: int, now: int)
    ensures var t := TornDown(f, hangupOk, hangupAt, now);
      && (t.record.state.Ended? || t.record.state.Failed?)
      && (t.published == 1 <==> !f.state.Ended? && !f.state.Failed?)
      && (t.published == 0 <==> t.record == f)
      && t.published <= 1 && t.record.answeredAt == f.answeredAt
      && (t.published == 1 ==>
            && t.record.state.Ended?
            && t.record.endedAt == Some(if f.state.Transferring? && hangupOk then hangupAt else now)
            && t.record.hangupCause == (
                 if f.state.Transferring? then Some(if hangupOk then "normal" else "transferred")
                 else if f.hangupCause in {None, Some("")} then Some("normal")
                 else f.hangupCause)
            && (f.answeredAt.None? ==> t.record.duration == f.duration)
            && (f.answeredAt.Some? ==>
                  t.record.duration == Some(t.record.endedAt.value - f.answeredAt.value)))
  {
  }

  // ---- The session object ----

  ghost function FinalOf(c: Call): Final
    reads c
  {
    Final(c.state, c.hangupCause, c.answeredAt, c.endedAt, c.duration)
  }

  class Session {
    const callId: string
    const store: StateStore
    const opening: Opening
    var fsm: Option<PM.Core>            // the conversation
    var registered: bool                // in _sessions
    ghost var report: Report
    ghost var teardowns: nat
    var cdrSaves: nat
    var published: nat                  // CALL_ENDED messages

    constructor (callId: string, store: StateStore, opening: Opening)
      ensures this.callId == callId && this.store == store && this.opening == opening && fsm.None? && report == FRESH
      ensures !registered && teardowns == 0 && cdrSaves == 0 && published == 0
    {
      this.callId, this.store, this.opening, fsm, report := callId, store, opening, None, FRESH;
      registered, teardowns, cdrSaves, published := false, 0, 0, 0;
    }

    ghost function Record(): set<Call>
      reads store
    {
      if callId in store.calls then {store.calls[callId]} else {}
    }

    // call_controller.hangup, whose request has been answered with `ok`. False stands for its exception.
    method Hangup(ok: bool, now: int) returns (done: bool)
      requires store.Valid()
      modifies this`published, store`calls, store`callsFailed, Record()
      ensures store.Valid() && store.calls == old(store.calls) && done == ok
      ensures callId in store.calls ==>
        FinalOf(store.calls[callId]) == if ok then HungUp(old(FinalOf(store.calls[callId])), now)
          else old(FinalOf(store.calls[callId]))
      ensures published == old(published) + (if ok && callId in store.calls then 1 else 0)
    {
      if !ok {
        return false;
      }
      var call := store.GetCall(callId);
      if call != null {
        call.state := Ended;
        call.endedAt := Some(now);
        call.hangupCause := Some("normal");
        if call.answeredAt.Some? {
          call.duration := Some(now - call.answeredAt.value);
        }
        store.UpdateCall(call);
        published := published + 1;
      }
      return true;
    }

    // All attempts exhausted, or the handshake rejected.
    method HandleWsFailure(hangupOk: bool, now: int)
      requires store.Valid()
      modifies this`published, store`calls, store`callsFailed, store`reconnectFailures, Record()
      ensures store.Valid() && store.calls == old(store.calls)
      ensures store.reconnectFailures == PushBounded(old(store.reconnectFailures), now, Breaker.FAILURE_HISTORY)
      ensures callId in store.calls ==>
        FinalOf(store.calls[callId]) ==
          var failed := old(FinalOf(store.calls[callId])).(hangupCause := Some("ws_failure"));
          if hangupOk then HungUp(failed, now) else failed
    {
      var call := store.GetCall(callId);
      if call != null {
        call.hangupCause := Some("ws_failure");
        store.UpdateCall(call);
      }
      store.RecordReconnectFailure(now);
      var done := Hangup(hangupOk, now);
    }

    method CloseRecord(call: Call, cause: Option<string>, now: int)
      requires store.Valid() && callId in store.calls && store.calls[callId] == call
      modifies this`published, store`calls, store`callsFailed, call
      ensures store.Valid() && store.calls == old(store.calls)
      ensures FinalOf(call) == Closed(old(FinalOf(call)), cause, now)
      ensures published == old(published) + 1
    {
      call.state := Ended;
      call.endedAt := Some(now);
      call.hangupCause := cause;
      if call.answeredAt.Some? {
        call.duration := Some(now - call.answeredAt.value);
      }
      store.UpdateCall(call);
      published := published + 1;
    }

    // With no concurrent writer: the record is closed and one CDR save is scheduled, if it exists.
    method TearDown(hangupOk: bool, hangupAt: int, now: int)
      requires store.Valid()
      modifies this`published, this`cdrSaves, this`teardowns, store`calls, store`callsFailed, Record()
      ensures store.Valid() && store.calls == old(store.calls)
      ensures teardowns == old(teardowns) + 1
      ensures callId !in store.calls ==> cdrSaves == old(cdrSaves) && published == old(published)
      ensures callId in store.calls ==>
        && FinalOf(store.calls[callId]) == TornDown(old(FinalOf(store.calls[callId])), hangupOk, hangupAt, now).record
        && published == old(published) + TornDown(old(FinalOf(store.calls[callId])), hangupOk, hangupAt, now).published
        && cdrSaves == old(cdrSaves) + 1
    {
      teardowns := teardowns + 1;
      var call := store.GetCall(callId);
      if call == null {
        return;
      }
      ghost var before := FinalOf(call);
      TeardownCloses(before, hangupOk, hangupAt, now);
      if call.state == Transferring {
        var done := Hangup(hangupOk, hangupAt);
        if call.state == Transferring {
          CloseRecord(call, Some("transferred"), now);
        }
      } else if call.state != Ended && call.state != Failed {
        var cause := if call.hangupCause.None? || call.hangupCause.value == "" then Some("normal")
          else call.hangupCause;
        CloseRecord(call, cause, now);
      }
      assert FinalOf(call) == TornDown(before, hangupOk, hangupAt, now).record;
      assert FinalOf(call).state == call.state;
      if call.state == Ended || call.state == Failed {
        cdrSaves := cdrSaves + 1;
      }
    }

    // A socket has opened: a new FSM enters GREETING on the first attempt, the one there is enters its own phase
    // afterwards. Without an FSM reading its phase raises.
    method Open(first: bool) returns (ok: bool)
      requires report.fsm == fsm
      modifies this`fsm, this`report
      ensures ok == (first || old(fsm).Some?)
      ensures ok ==> fsm == Opened(opening, old(report), if first then 0 else 1)
      ensures !ok ==> fsm == old(fsm)
      ensures report == old(report).(
        connections := old(report).connections + 1,
        entered := old(report).entered + (if ok then [fsm.value.phase] else []),
        fsm := fsm)
    {
      hide PM.Apply, PM.Start;
      report := report.(connections := report.connections + 1);
      if first {
        fsm := Some(PM.Start(opening.call));
      } else if fsm.None? {
        return false;
      } else {
        fsm := Some(PM.Apply(fsm.value, PM.Reconnect, opening.st).core);
      }
      report := report.(entered := report.entered + [fsm.value.phase], fsm := fsm);
      ok := true;
    }

    // connect(): the loop over the outcomes the network decides, then teardown. `failureHangupOk` answers the
    // hangup request of the failure path, `hangupOk` the one of teardown.
    method Connect(attempts: seq<Attempt>, failureHangupOk: bool, hangupOk: bool, hangupAt: int, now: int)
      requires store.Valid() && store.Bounded() && report == FRESH && fsm.None? && teardowns == 0 && cdrSaves == 0
      requires |attempts| == MAX_RECONNECTS + 1 && forall i :: 0 <= i < |attempts| ==> Plausible(attempts[i])
      modifies this, store`calls, store`callsFailed, store`reconnectFailures, store`wsErrors, Record()
      ensures store.Valid() && store.Bounded() && store.calls == old(store.calls)
      ensures report == Passes(opening, attempts, |attempts|) && report.connections <= 4 && |report.failures| <= 1
      ensures store.wsErrors == LastN(old(store.wsErrors) + report.wsErrors, Breaker.ERROR_HISTORY)
      ensures store.reconnectFailures == LastN(old(store.reconnectFailures) + report.failures, Breaker.FAILURE_HISTORY)
      ensures !registered && teardowns == 1
      ensures callId in store.calls ==>
        && (store.calls[callId].state == Ended || store.calls[callId].state == Failed)
        && cdrSaves == 1
      ensures callId !in store.calls ==> cdrSaves == 0
    {
      hide GivesUp, TornDown, Passes, Pass;
      registered := true;
      ReconnectsAreBounded(opening, attempts);
      RunAttempts(attempts, failureHangupOk);
      registered := false;
      if callId in store.calls {
        TeardownCloses(FinalOf(store.calls[callId]), hangupOk, hangupAt, now);
      }
      TearDown(hangupOk, hangupAt, now);
    }

    method RunAttempts(attempts: seq<Attempt>, hangupOk: bool)
      requires store.Valid() && store.Bounded() && report == FRESH && fsm.None?
      requires |attempts| == MAX_RECONNECTS + 1 && forall i :: 0 <= i < |attempts| ==> Plausible(attempts[i])
      modifies this`fsm, this`report, this`published,
               store`calls, store`callsFailed, store`reconnectFailures, store`wsErrors, Record()
      ensures store.Valid() && store.calls == old(store.calls)
      ensures report == Passes(opening, attempts, |attempts|)
      ensures store.wsErrors == LastN(old(store.wsErrors) + report.wsErrors, Breaker.ERROR_HISTORY)
      ensures store.reconnectFailures == LastN(old(store.reconnectFailures) + report.failures, Breaker.FAILURE_HISTORY)
    {
      hide GivesUp, LastN, Pass, Plausible;
      ReconnectsAreBounded(opening, attempts);
      NothingPushed(store.wsErrors, Breaker.ERROR_HISTORY);
      NothingPushed(store.reconnectFailures, Breaker.FAILURE_HISTORY);
      for k := 0 to |attempts|
        invariant store.Valid() && store.calls == old(store.calls)
        invariant report == Passes(opening, attempts, k) && !report.stopped && report.fsm == fsm
        invariant store.wsErrors == LastN(old(store.wsErrors) + report.wsErrors, Breaker.ERROR_HISTORY)
        invariant store.reconnectFailures ==
          LastN(old(store.reconnectFailures) + report.failures, Breaker.FAILURE_HISTORY)
      {
        var stopped := RunAttempt(attempts[k], k, hangupOk, old(store.wsErrors), old(store.reconnectFailures));
        if stopped {
          StoppedStays(opening, attempts, k + 1);
          break;
        }
      }
    }

    // One pass of the loop, against Pass. `errors` and `failures` are the store's deques before the first pass.
    method RunAttempt(a: Attempt, k: nat, hangupOk: bool, ghost errors: seq<int>, ghost failures: seq<int>)
        returns (stopped: bool)
      requires store.Valid() && !report.stopped && report.fsm == fsm && k <= MAX_RECONNECTS && Plausible(a)
      requires store.wsErrors == LastN(errors + report.wsErrors, Breaker.ERROR_HISTORY)
      requires store.reconnectFailures == LastN(failures + report.failures, Breaker.FAILURE_HISTORY)
      modifies this`fsm, this`report, this`published,
               store`calls, store`callsFailed, store`reconnectFailures, store`wsErrors, Record()
      ensures store.Valid() && store.calls == old(store.calls)
      ensures report == Pass(opening, old(report), a, k) && report.fsm == fsm && stopped == report.stopped
      ensures store.wsErrors == LastN(errors + report.wsErrors, Breaker.ERROR_HISTORY)
      ensures store.reconnectFailures == LastN(failures + report.failures, Breaker.FAILURE_HISTORY)
    {
      hide LastN, HungUp;
      stopped := true;
      var ending := a.ending;
      if a.connected {
        var ok := Open(k == 0);
        if !ok {
          ending := OtherError;
        }
      }
      if fsm.Some? {
        fsm := Some(Drive(fsm.value, a.events, opening.st));
        report := report.(fsm := fsm);
      }
      match ending {
        case CleanExit =>
          report := report.(stopped := true);
        case Lost =>
          if a.closing {
            report := report.(stopped := true);
            return true;
          }
          NoteWsError(a.at, errors);
          if k < MAX_RECONNECTS {
            return false;
          }
          NoteFailure(a.at, hangupOk, failures);
        case StatusRejected =>
          NoteWsError(a.at, errors);
          NoteFailure(a.at, hangupOk, failures);
        case OtherError =>
          NoteWsError(a.at, errors);
          report := report.(stopped := true);
      }
    }

    method NoteWsError(at: int, ghost errors: seq<int>)
      requires store.Valid() && store.wsErrors == LastN(errors + report.wsErrors, Breaker.ERROR_HISTORY)
      modifies this`report, store`wsErrors
      ensures store.Valid() && report == old(report).(wsErrors := old(report).wsErrors + [at])
      ensures store.wsErrors == LastN(errors + report.wsErrors, Breaker.ERROR_HISTORY)
    {
      PushBoundedIsSuffix(errors + report.wsErrors, at, Breaker.ERROR_HISTORY);
      assert errors + (report.wsErrors + [at]) == errors + report.wsErrors + [at];
      store.RecordWsError(at);
      report := report.(wsErrors := report.wsErrors + [at]);
    }

    method NoteFailure(at: int, hangupOk: bool, ghost failures: seq<int>)
      requires store.Valid() && store.reconnectFailures == LastN(failures + report.failures, Breaker.FAILURE_HISTORY)
      modifies this`report, this`published, store`calls, store`callsFailed, store`reconnectFailures, Record()
      ensures store.Valid() && store.calls == old(store.calls)
      ensures report == old(report).(failures := old(report).failures + [at], stopped := true)
      ensures store.reconnectFailures == LastN(failures + report.failures, Breaker.FAILURE_HISTORY)
    {
      PushBoundedIsSuffix(failures + report.failures, at, Breaker.FAILURE_HISTORY);
      assert failures + (report.failures + [at]) == failures + report.failures + [at];
      HandleWsFailure(hangupOk, at);
      report := report.(failures := report.failures + [at], stopped := true);
    }
  }

  lemma NothingPushed(times: seq<int>, n: nat)
    requires |times| <= n
    ensures LastN(times + [], n) == times
  {
    assert times + [] == times;
  }

  lemma {:induction false} StoppedStays(x: Opening, attempts: seq<Attempt>, k: nat)
    requires k <= |attempts| && Passes(x, attempts, k).stopped
    ensures Passes(x, attempts, |attempts|) == Passes(x, attempts, k)
    decreases |attempts| - k
  {
    if k < |attempts| {
      StoppedStays(x, attempts, k + 1);
    }
  }
}
