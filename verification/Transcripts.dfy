// The dashboard's transcript panel: snapshots and live turns merged by turn index.
module Transcripts {
  import opened Models

  // What the operator sees of a turn, apart from its time of day.
  datatype Body = Body(index: int, role: string, text: string, phase: Option<string>)

  datatype Turn = Turn(body: Body, timestamp: string)

  // A call's Map<turn_index, turn>, as its values in insertion order.
  type TurnMap = seq<Turn>

  datatype Message =
    | Snapshot(transcripts: seq<(string, seq<Turn>)>)
    | CallCreated(callId: string)
    | TranscriptTurn(callId: string, turn: Turn)
    | OtherMessage

  // map.set(turn.turn_index, turn): in place when the key exists, else at the end.
  function SetTurn(m: TurnMap, t: Turn): TurnMap {
    if m == [] then [t]
    else if m[0].body.index == t.body.index then [t] + m[1..]
    else [m[0]] + SetTurn(m[1..], t)
  }

  type Panel = map<string, TurnMap>

  function Touch(p: Panel, callId: string): Panel {
    if callId in p then p else p[callId := []]
  }

  // ---- Messages as elementary updates ----

  datatype Update = Ensure(callId: string) | Put(callId: string, turn: Turn)

  function ApplyUpdate(p: Panel, u: Update): Panel {
    match u
    case Ensure(id) => Touch(p, id)
    case Put(id, turn) => Touch(p, id)[id := SetTurn(Touch(p, id)[id], turn)]
  }

  function ApplyAll(p: Panel, us: seq<Update>): Panel {
    if us == [] then p else ApplyUpdate(ApplyAll(p, us[..|us| - 1]), us[|us| - 1])
  }

  function Puts(callId: string, turns: seq<Turn>): seq<Update> {
    if turns == [] then [] else Puts(callId, turns[..|turns| - 1]) + [Put(callId, turns[|turns| - 1])]
  }

  function Merges(transcripts: seq<(string, seq<Turn>)>): seq<Update> {
    if transcripts == [] then []
    else
      var last := transcripts[|transcripts| - 1];
      Merges(transcripts[..|transcripts| - 1]) + ([Ensure(last.0)] + Puts(last.0, last.1))
  }

  function Updates(m: Message): seq<Update> {
    match m
    case Snapshot(transcripts) => Merges(transcripts)
    case CallCreated(id) => [Ensure(id)]
    case TranscriptTurn(id, turn) => [Put(id, turn)]
    case OtherMessage => []
  }

  function AllUpdates(ms: seq<Message>): seq<Update> {
    if ms == [] then [] else AllUpdates(ms[..|ms| - 1]) + Updates(ms[|ms| - 1])
  }

  lemma {:induction false} ApplyAllAppend(p: Panel, us: seq<Update>, vs: seq<Update>)
    ensures ApplyAll(p, us + vs) == ApplyAll(ApplyAll(p, us), vs)
  {
    if vs == [] {
      assert us + vs == us;
    } else {
      var front := vs[..|vs| - 1];
      ApplyAllAppend(p, us, front);
      assert (us + vs)[..|us + vs| - 1] == us + front;
    }
  }

  // Merging one more turn of a snapshot entry.
  lemma PutsStep(p: Panel, callId: string, turns: seq<Turn>, j: nat)
    requires j < |turns|
    ensures ApplyAll(p, [Ensure(callId)] + Puts(callId, turns[..j + 1])) ==
      ApplyUpdate(ApplyAll(p, [Ensure(callId)] + Puts(callId, turns[..j])), Put(callId, turns[j]))
  {
    hide ApplyUpdate;
    assert turns[..j + 1][..j] == turns[..j];
    var us := [Ensure(callId)] + Puts(callId, turns[..j]);
    assert [Ensure(callId)] + Puts(callId, turns[..j + 1]) == us + [Put(callId, turns[j])];
    assert (us + [Put(callId, turns[j])])[..|us|] == us;
  }

  // The panel object. Other message types leave the transcripts alone.
  class TranscriptPanel {
    var transcripts: Panel

    constructor ()
      ensures transcripts == map[]
    {
      transcripts := map[];
    }

    method HandleMessage(msg: Message)
      modifies this
      ensures transcripts == ApplyAll(old(transcripts), Updates(msg))
    {
      match msg {
        case Snapshot(entries) =>
          for i := 0 to |entries|
            invariant transcripts == ApplyAll(old(transcripts), Merges(entries[..i]))
          {
            ghost var start := transcripts;
            var (callId, turns) := entries[i];
            if callId !in transcripts {
              transcripts := transcripts[callId := []];
            }
            assert transcripts == ApplyAll(start, [Ensure(callId)]);
            for j := 0 to |turns|
              invariant callId in transcripts
              invariant transcripts == ApplyAll(start, [Ensure(callId)] + Puts(callId, turns[..j]))
            {
              transcripts := transcripts[callId := SetTurn(transcripts[callId], turns[j])];
              PutsStep(start, callId, turns, j);
            }
            assert turns[..|turns|] == turns;
            assert entries[..i + 1][..i] == entries[..i];
            ApplyAllAppend(old(transcripts), Merges(entries[..i]), [Ensure(callId)] + Puts(callId, turns));
          }
          assert entries[..|entries|] == entries;
        case CallCreated(callId) =>
          if callId !in transcripts {
            transcripts := transcripts[callId := []];
          }
        case TranscriptTurn(callId, turn) =>
          if callId !in transcripts {
            transcripts := transcripts[callId := []];
          }
          transcripts := transcripts[callId := SetTurn(transcripts[callId], turn)];
        case OtherMessage =>
      }
    }
  }

  // ---- Rendering ----

  function InsertByIndex(t: Turn, sorted: seq<Turn>): seq<Turn> {
    if sorted == [] then [t]
    else if t.body.index < sorted[0].body.index then [t] + sorted
    else [sorted[0]] + InsertByIndex(t, sorted[1..])
  }

  function SortByIndex(m: TurnMap): seq<Turn> {
    if m == [] then [] else InsertByIndex(m[|m| - 1], SortByIndex(m[..|m| - 1]))
  }

  function Bodies(turns: seq<Turn>): (r: seq<Body>)
    ensures |r| == |turns| && forall i :: 0 <= i < |r| ==> r[i] == turns[i].body
  {
    if turns == [] then [] else [turns[0].body] + Bodies(turns[1..])
  }

  // The rendered transcript of a call without its times; None for the "select a call" placeholder.
  function Rendered(p: Panel, callId: string): Option<seq<Body>> {
    if callId in p then Some(Bodies(SortByIndex(p[callId]))) else None
  }

  // ---- What was delivered for a call ----

  function Mentioned(us: seq<Update>, callId: string): bool {
    exists u :: u in us && u.callId == callId
  }

  function Delivered(us: seq<Update>, callId: string): set<Body> {
    set u | u in us && u.Put? && u.callId == callId :: u.turn.body
  }

  // One body per turn index: what the scrubbed, stored and published turns share.
  ghost predicate Consistent(bodies: set<Body>) {
    forall a, b :: a in bodies && b in bodies && a.index == b.index ==> a == b
  }

  predicate Holds(m: TurnMap, b: Body) {
    exists i :: 0 <= i < |m| && m[i].body == b
  }

  ghost predicate DistinctIndices(m: TurnMap) {
    forall i, j :: 0 <= i < j < |m| ==> m[i].body.index != m[j].body.index
  }

  // Setting a turn keeps indices distinct; a body is held afterwards iff it is the new one or was
  // held under another index.
  lemma {:induction false} SetTurnExact(m: TurnMap, t: Turn, b: Body)
    requires DistinctIndices(m)
    ensures DistinctIndices(SetTurn(m, t))
    ensures Holds(SetTurn(m, t), b) <==> b == t.body || (Holds(m, b) && b.index != t.body.index)
    ensures forall i :: 0 <= i < |SetTurn(m, t)| ==>
      SetTurn(m, t)[i].body.index == t.body.index || (exists k :: 0 <= k < |m| && m[k] == SetTurn(m, t)[i])
  {
    var r := SetTurn(m, t);
    if m == [] {
      assert r[0].body == t.body;
    } else {
      var rest := m[1..];
      assert forall i :: 0 <= i < |rest| ==> rest[i] == m[i + 1];
      if m[0].body.index == t.body.index {
        assert r[0] == t && forall i :: 1 <= i < |r| ==> r[i] == m[i];
        HoldsCons(t, rest, b);
        HoldsCons(m[0], rest, b);
      } else {
        SetTurnExact(rest, t, b);
        var tail := SetTurn(rest, t);
        assert r == [m[0]] + tail;
        HoldsCons(m[0], tail, b);
        HoldsCons(m[0], rest, b);
        assert m == [m[0]] + rest;
        forall i | 0 <= i < |tail|
          ensures tail[i].body.index != m[0].body.index
        {
        }
      }
    }
  }

  lemma HoldsCons(t: Turn, m: TurnMap, b: Body)
    ensures Holds([t] + m, b) <==> t.body == b || Holds(m, b)
  {
    var n := [t] + m;
    assert n[0] == t && forall i :: 0 <= i < |m| ==> n[i + 1] == m[i];
    if Holds(m, b) {
      var i :| 0 <= i < |m| && m[i].body == b;
      assert n[i + 1].body == b;
    }
  }

  // The panel holds for a call exactly what was delivered for it.
  ghost predicate Exact(p: Panel, us: seq<Update>, callId: string) {
    && (callId in p <==> Mentioned(us, callId))
    && (callId in p ==> DistinctIndices(p[callId]) && forall b :: Holds(p[callId], b) <==> b in Delivered(us, callId))
  }

  lemma {:induction false} PanelIsExact(us: seq<Update>, callId: string)
    requires Consistent(Delivered(us, callId))
    ensures Exact(ApplyAll(map[], us), us, callId)
  {
    if us != [] {
      var front, u := us[..|us| - 1], us[|us| - 1];
      assert us == front + [u];
      assert forall b :: b in Delivered(front, callId) ==> b in Delivered(us, callId);
      PanelIsExact(front, callId);
      UpdateIsExact(ApplyAll(map[], front), front, u, callId);
    }
  }

  lemma UpdateIsExact(p: Panel, us: seq<Update>, u: Update, callId: string)
    requires Exact(p, us, callId) && Consistent(Delivered(us + [u], callId))
    ensures Exact(ApplyUpdate(p, u), us + [u], callId)
  {
    var all := us + [u];
    assert u in all && forall v :: v in all <==> v in us || v == u;
    if u.callId == callId {
      var q := Touch(p, callId);
      assert callId !in p ==> Delivered(us, callId) == {};
      if u.Put? {
        assert Delivered(all, callId) == Delivered(us, callId) + {u.turn.body};
        forall b
          ensures DistinctIndices(SetTurn(q[callId], u.turn))
          ensures Holds(SetTurn(q[callId], u.turn), b) <==> b in Delivered(all, callId)
        {
          SetTurnExact(q[callId], u.turn, b);
        }
      } else {
        assert Delivered(all, callId) == Delivered(us, callId);
      }
    } else {
      assert Delivered(all, callId) == Delivered(us, callId);
    }
  }

  // ---- Sorting ----

  ghost predicate Ascending(turns: seq<Turn>) {
    forall i, j :: 0 <= i < j < |turns| ==> turns[i].body.index < turns[j].body.index
  }

  lemma {:induction false} InsertExact(t: Turn, sorted: seq<Turn>)
    requires Ascending(sorted) && forall i :: 0 <= i < |sorted| ==> sorted[i].body.index != t.body.index
    ensures Ascending(InsertByIndex(t, sorted))
    ensures forall x :: x in InsertByIndex(t, sorted) <==> x == t || x in sorted
  {
    if sorted != [] {
      assert sorted == [sorted[0]] + sorted[1..];
      if t.body.index >= sorted[0].body.index {
        var rest := InsertByIndex(t, sorted[1..]);
        InsertExact(t, sorted[1..]);
        forall i | 0 <= i < |rest|
          ensures sorted[0].body.index < rest[i].body.index
        {
          assert rest[i] in rest;
        }
      }
    }
  }

  lemma {:induction false} SortExact(m: TurnMap)
    requires DistinctIndices(m)
    ensures Ascending(SortByIndex(m))
    ensures forall x :: x in SortByIndex(m) <==> x in m
  {
    if m != [] {
      var front, last := m[..|m| - 1], m[|m| - 1];
      assert m == front + [last];
      SortExact(front);
      forall i | 0 <= i < |SortByIndex(front)|
        ensures SortByIndex(front)[i].body.index != last.body.index
      {
        assert SortByIndex(front)[i] in front;
      }
      InsertExact(last, SortByIndex(front));
    }
  }

  ghost predicate AscendingBodies(bs: seq<Body>) {
    forall i, j :: 0 <= i < j < |bs| ==> bs[i].index < bs[j].index
  }

  lemma {:induction false} AscendingBodiesUnique(a: seq<Body>, b: seq<Body>)
    requires AscendingBodies(a) && AscendingBodies(b) && forall x :: x in a <==> x in b
    ensures a == b
  {
    assert b == [] || b[0] in a;
    if a != [] {
      assert a[0] in b && (b != [] ==> b[0] in a);
      assert a[0] == b[0];
      assert a == [a[0]] + a[1..] && b == [b[0]] + b[1..];
      forall x
        ensures x in a[1..] <==> x in b[1..]
      {
        assert x in a[1..] <==> x in a && x != a[0];
        assert x in b[1..] <==> x in b && x != b[0];
      }
      AscendingBodiesUnique(a[1..], b[1..]);
    }
  }

  lemma RenderedExact(m: TurnMap)
    requires DistinctIndices(m)
    ensures var r := Bodies(SortByIndex(m));
      AscendingBodies(r) && forall b :: b in r <==> Holds(m, b)
  {
    SortExact(m);
    var sorted := SortByIndex(m);
    var r := Bodies(sorted);
    forall b
      ensures b in r <==> Holds(m, b)
    {
      if b in r {
        var i :| 0 <= i < |r| && r[i] == b;
        assert sorted[i] in m;
      }
      if Holds(m, b) {
        var i :| 0 <= i < |m| && m[i].body == b;
        assert m[i] in sorted;
        var k :| 0 <= k < |sorted| && sorted[k] == m[i];
        assert r[k] == b;
      }
    }
  }

  // ---- From the messages themselves ----

  // The message brings this turn of the call.
  predicate Carries(m: Message, callId: string, b: Body) {
    match m
    case Snapshot(entries) =>
      exists i, j {:trigger entries[i].1[j]} :: 0 <= i < |entries| && 0 <= j < |entries[i].1|
        && entries[i].0 == callId && entries[i].1[j].body == b
    case TranscriptTurn(id, turn) => id == callId && turn.body == b
    case _ => false
  }

  // The message is about the call.
  predicate Names(m: Message, callId: string) {
    match m
    case Snapshot(entries) => exists i :: 0 <= i < |entries| && entries[i].0 == callId
    case CallCreated(id) => id == callId
    case TranscriptTurn(id, _) => id == callId
    case OtherMessage => false
  }

  lemma DeliveredAppend(us: seq<Update>, vs: seq<Update>, callId: string, b: Body)
    ensures b in Delivered(us + vs, callId) <==> b in Delivered(us, callId) || b in Delivered(vs, callId)
    ensures Mentioned(us + vs, callId) <==> Mentioned(us, callId) || Mentioned(vs, callId)
  {
    assert forall u :: u in us + vs <==> u in us || u in vs;
  }

  lemma {:induction false} PutsExact(id: string, turns: seq<Turn>, callId: string, b: Body)
    ensures b in Delivered(Puts(id, turns), callId) <==>
      id == callId && exists j :: 0 <= j < |turns| && turns[j].body == b
    ensures Mentioned(Puts(id, turns), callId) ==> id == callId
  {
    if turns != [] {
      var front, last := turns[..|turns| - 1], turns[|turns| - 1];
      PutsExact(id, front, callId, b);
      DeliveredAppend(Puts(id, front), [Put(id, last)], callId, b);
      OneUpdate(Put(id, last), callId, b);
      assert forall j :: 0 <= j < |front| ==> front[j] == turns[j];
    }
  }

  lemma OneUpdate(u: Update, callId: string, b: Body)
    ensures b in Delivered([u], callId) <==> u.Put? && u.callId == callId && u.turn.body == b
    ensures Mentioned([u], callId) <==> u.callId == callId
  {
    assert [u][0] == u;
  }

  lemma {:induction false} SnapshotExact(entries: seq<(string, seq<Turn>)>, callId: string, b: Body)
    ensures b in Delivered(Merges(entries), callId) <==> Carries(Snapshot(entries), callId, b)
    ensures Mentioned(Merges(entries), callId) <==> Names(Snapshot(entries), callId)
  {
    hide Delivered, Mentioned;
    if entries == [] {
      NothingDelivered(callId);
    } else {
      var front, last := entries[..|entries| - 1], entries[|entries| - 1];
      SnapshotExact(front, callId, b);
      PutsExact(last.0, last.1, callId, b);
      OneUpdate(Ensure(last.0), callId, b);
      DeliveredAppend([Ensure(last.0)], Puts(last.0, last.1), callId, b);
      DeliveredAppend(Merges(front), [Ensure(last.0)] + Puts(last.0, last.1), callId, b);
      EntriesSnoc(entries, callId, b);
    }
  }

  lemma NothingDelivered(callId: string)
    ensures Delivered([], callId) == {} && !Mentioned([], callId)
  {
  }

  lemma EntriesSnoc(entries: seq<(string, seq<Turn>)>, callId: string, b: Body)
    requires entries != []
    ensures var front, last := entries[..|entries| - 1], entries[|entries| - 1];
      && (Names(Snapshot(entries), callId) <==> Names(Snapshot(front), callId) || last.0 == callId)
      && (Carries(Snapshot(entries), callId, b) <==>
            Carries(Snapshot(front), callId, b)
            || (last.0 == callId && exists j :: 0 <= j < |last.1| && last.1[j].body == b))
  {
    var front, last := entries[..|entries| - 1], entries[|entries| - 1];
    assert forall i :: 0 <= i < |front| ==> front[i] == entries[i];
    if i, j :| 0 <= i < |front| && 0 <= j < |front[i].1| && front[i].0 == callId && front[i].1[j].body == b {
      assert entries[i].1[j].body == b;
    }
    if j :| 0 <= j < |last.1| && last.1[j].body == b {
      assert entries[|entries| - 1].1[j].body == b;
    }
    if i, j :| 0 <= i < |entries| && 0 <= j < |entries[i].1| && entries[i].0 == callId && entries[i].1[j].body == b {
      assert i < |front| ==> front[i].1[j].body == b;
    }
  }

  // What the panel does with a message is what the message carries.
  lemma UpdatesExact(m: Message, callId: string, b: Body)
    ensures b in Delivered(Updates(m), callId) <==> Carries(m, callId, b)
    ensures Mentioned(Updates(m), callId) <==> Names(m, callId)
  {
    hide Delivered, Mentioned, Merges;
    match m
    case Snapshot(entries) => SnapshotExact(entries, callId, b);
    case CallCreated(id) => OneUpdate(Ensure(id), callId, b);
    case TranscriptTurn(id, turn) => OneUpdate(Put(id, turn), callId, b);
    case OtherMessage => NothingDelivered(callId);
  }

  ghost predicate SomeCarries(ms: seq<Message>, callId: string, b: Body) {
    exists k :: 0 <= k < |ms| && Carries(ms[k], callId, b)
  }

  ghost predicate SomeNames(ms: seq<Message>, callId: string) {
    exists k :: 0 <= k < |ms| && Names(ms[k], callId)
  }

  lemma {:induction false} MessagesExact(ms: seq<Message>, callId: string, b: Body)
    ensures b in Delivered(AllUpdates(ms), callId) <==> SomeCarries(ms, callId, b)
    ensures Mentioned(AllUpdates(ms), callId) <==> SomeNames(ms, callId)
  {
    hide Delivered, Mentioned, Updates, Carries, Names;
    if ms == [] {
      NothingDelivered(callId);
    } else {
      var front, last := ms[..|ms| - 1], ms[|ms| - 1];
      MessagesExact(front, callId, b);
      UpdatesExact(last, callId, b);
      DeliveredAppend(AllUpdates(front), Updates(last), callId, b);
      assert forall k :: 0 <= k < |front| ==> front[k] == ms[k];
    }
  }

  // One body per turn index among the turns these messages bring.
  ghost predicate Agreeing(ms: seq<Message>, callId: string) {
    forall a, b :: SomeCarries(ms, callId, a) && SomeCarries(ms, callId, b) && a.index == b.index ==> a == b
  }

  // After any messages, the transcript shown for a call they name is ascending and has exactly the turns
  // they brought for it; a call no message names has none.
  lemma TranscriptIsWhatCame(ms: seq<Message>, callId: string)
    requires Agreeing(ms, callId)
    ensures var r := Rendered(ApplyAll(map[], AllUpdates(ms)), callId);
      && (r.Some? <==> SomeNames(ms, callId))
      && (r.Some? ==> AscendingBodies(r.value) && forall b :: b in r.value <==> SomeCarries(ms, callId, b))
  {
    hide ApplyAll, SortByIndex, AllUpdates, Delivered, Mentioned, SomeCarries, SomeNames, Bodies, Holds;
    forall b: Body
      ensures b in Delivered(AllUpdates(ms), callId) <==> SomeCarries(ms, callId, b)
      ensures Mentioned(AllUpdates(ms), callId) <==> SomeNames(ms, callId)
    {
      MessagesExact(ms, callId, b);
    }
    assert Mentioned(AllUpdates(ms), callId) <==> SomeNames(ms, callId) by {
      MessagesExact(ms, callId, Body(0, "", "", None));
    }
    PanelIsExact(AllUpdates(ms), callId);
    var p := ApplyAll(map[], AllUpdates(ms));
    if callId in p {
      RenderedExact(p[callId]);
    }
  }

  // Two operators whose panels were given the same turns of a call, in any order, split in any way
  // into snapshots and live messages, with any repetition, see the same transcript.
  lemma TranscriptsConverge(ms: seq<Message>, ns: seq<Message>, callId: string)
    requires forall b :: SomeCarries(ms, callId, b) <==> SomeCarries(ns, callId, b)
    requires SomeNames(ms, callId) <==> SomeNames(ns, callId)
    requires Agreeing(ms, callId)
    ensures Rendered(ApplyAll(map[], AllUpdates(ms)), callId) == Rendered(ApplyAll(map[], AllUpdates(ns)), callId)
  {
    hide ApplyAll, AllUpdates, Rendered, SomeCarries, SomeNames;
    TranscriptIsWhatCame(ms, callId);
    TranscriptIsWhatCame(ns, callId);
    var p := Rendered(ApplyAll(map[], AllUpdates(ms)), callId);
    var q := Rendered(ApplyAll(map[], AllUpdates(ns)), callId);
    if p.Some? {
      AscendingBodiesUnique(p.value, q.value);
    }
  }
}
