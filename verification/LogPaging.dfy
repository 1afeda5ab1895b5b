// The log ring buffer and a client that pages through it by its cursor.
module LogPaging {
  import opened Models

  datatype Entry = Entry(id: int, text: string)

  // Buffered entries after a sequence number, in buffer order.
  function Newer(buffer: seq<Entry>, since: int): seq<Entry> {
    if buffer == [] then []
    else (if buffer[0].id > since then [buffer[0]] else []) + Newer(buffer[1..], since)
  }

  lemma {:induction false} NewerExact(buffer: seq<Entry>, since: int)
    ensures forall e :: e in Newer(buffer, since) <==> e in buffer && e.id > since
  {
    if buffer != [] {
      NewerExact(buffer[1..], since);
      assert buffer == [buffer[0]] + buffer[1..];
    }
  }

  lemma {:induction false} NewerSnoc(buffer: seq<Entry>, e: Entry, since: int)
    ensures Newer(buffer + [e], since) == Newer(buffer, since) + (if e.id > since then [e] else [])
  {
    if buffer == [] {
      assert [] + [e] == [e];
    } else {
      NewerSnoc(buffer[1..], e, since);
      assert (buffer + [e])[1..] == buffer[1..] + [e];
    }
  }

  // StateStore.get_logs
  function Page(buffer: seq<Entry>, since: int, limit: nat): seq<Entry> {
    var entries := Newer(buffer, since);
    if |entries| <= limit then entries else entries[..limit]
  }

  // next_seq of the route's answer
  function NextSeq(page: seq<Entry>, since: int): int {
    if page != [] then page[|page| - 1].id else since
  }

  // `unread`: the client had not received the entry when it was evicted.
  datatype Eviction = Eviction(entry: Entry, cursor: int, unread: bool)

  // The page is full before it comes to position i.
  predicate CutBefore(buffer: seq<Entry>, since: int, limit: nat, i: nat)
    requires i < |buffer|
  {
    |Newer(buffer[..i], since)| >= limit
  }

  // The buffer, the client, and what became of every entry: `late` ones were appended at or below the
  // cursor, `overtaken` ones stood unread in the buffer behind enough newer entries to fill a page that
  // ended in one with a greater id.
  datatype State = State(
    appended: seq<Entry>, buffer: seq<Entry>,
    cursor: int, received: seq<Entry>, evictions: seq<Eviction>,
    late: set<Entry>, overtaken: set<Entry>)

  datatype Action = Append(entry: Entry) | Poll(limit: nat)

  function Step(s: State, a: Action, capacity: nat): State {
    match a
    case Append(e) =>
      var all := s.buffer + [e];
      s.(appended := s.appended + [e],
         buffer := LastN(all, capacity),
         late := if e.id <= s.cursor then s.late + {e} else s.late,
         evictions := if |all| > capacity
                      then s.evictions + [Eviction(all[0], s.cursor, all[0] !in s.received)]
                      else s.evictions)
    case Poll(limit) =>
      var page := Page(s.buffer, s.cursor, limit);
      var next := NextSeq(page, s.cursor);
      s.(received := s.received + page, cursor := next,
         overtaken := s.overtaken + OvertakenBy(s, limit))
  }

  // What one page passes over: it is full before the entry's turn, and ends in a greater id.
  function OvertakenBy(s: State, limit: nat): set<Entry> {
    var next := NextSeq(Page(s.buffer, s.cursor, limit), s.cursor);
    set i | 0 <= i < |s.buffer| && CutBefore(s.buffer, s.cursor, limit, i)
            && s.buffer[i] !in s.received && s.cursor < s.buffer[i].id < next :: s.buffer[i]
  }

  function Run(start: int, actions: seq<Action>, capacity: nat): State {
    if actions == [] then State([], [], start, [], [], {}, {})
    else Step(Run(start, actions[..|actions| - 1], capacity), actions[|actions| - 1], capacity)
  }

  ghost predicate Ordered(entries: seq<Entry>) {
    forall i, j :: 0 <= i < j < |entries| ==> entries[i].id < entries[j].id
  }

  predicate EvictedUnread(s: State, e: Entry) {
    exists v :: v in s.evictions && v.entry == e && v.unread && v.cursor < e.id
  }

  predicate Evicted(s: State, e: Entry) {
    exists v :: v in s.evictions && v.entry == e
  }

  ghost predicate Paged(s: State, start: int, capacity: nat) {
    && s.buffer == LastN(s.appended, capacity)
    && start <= s.cursor
    && Ordered(s.received)
    && (forall e :: e in s.received ==> e in s.appended && start < e.id <= s.cursor)
    && (forall v :: v in s.evictions ==> v.cursor <= s.cursor && (v.unread || v.entry in s.received))
    && (forall e :: e in s.appended ==> e in s.buffer || Evicted(s, e))
    && (forall e :: e in s.appended && start < e.id <= s.cursor ==> e in s.received || EvictedUnread(s, e))
  }

  lemma {:induction false} NewerIsOrdered(buffer: seq<Entry>, since: int)
    requires Ordered(buffer)
    ensures Ordered(Newer(buffer, since))
  {
    if buffer != [] {
      NewerIsOrdered(buffer[1..], since);
      NewerExact(buffer[1..], since);
      assert forall e :: e in buffer[1..] ==> buffer[0].id < e.id;
    }
  }

  // The page is the smallest newer entries: nothing newer that is left out lies before its end.
  lemma PageIsFirst(buffer: seq<Entry>, since: int, limit: nat)
    requires Ordered(buffer)
    ensures var page := Page(buffer, since, limit);
      && Ordered(page)
      && (forall e :: e in page ==> e in buffer && since < e.id <= NextSeq(page, since))
      && (forall e :: e in buffer && since < e.id <= NextSeq(page, since) ==> e in page)
      && since <= NextSeq(page, since)
  {
    hide Newer;
    NewerIsOrdered(buffer, since);
    NewerExact(buffer, since);
    var all, page := Newer(buffer, since), Page(buffer, since, limit);
    if page != [] {
      PrefixOfOrdered(all, |page|);
      assert page == all[..|page|];
      assert page[|page| - 1] in page;
    }
  }

  lemma PrefixOfOrdered(entries: seq<Entry>, n: nat)
    requires Ordered(entries) && 0 < n <= |entries|
    ensures forall e :: e in entries[..n] <==> e in entries && e.id <= entries[n - 1].id
  {
    forall e | e in entries && e.id <= entries[n - 1].id
      ensures e in entries[..n]
    {
      var k :| 0 <= k < |entries| && entries[k] == e;
      assert entries[..n][k] == e;
    }
  }

  lemma AppendKeepsPaging(s: State, start: int, e: Entry, capacity: nat)
    requires Paged(s, start, capacity)
    requires s.cursor < e.id || e.id <= start
    ensures Paged(Step(s, Append(e), capacity), start, capacity)
  {
    var t := Step(s, Append(e), capacity);
    PushBoundedIsSuffix(s.appended, e, capacity);
    var all := s.buffer + [e];
    forall x | x in t.appended
      ensures x in t.buffer || Evicted(t, x)
    {
      if x in all {
        if |all| > capacity {
          assert |all| == capacity + 1 && all[1..] == t.buffer;
          assert all == [all[0]] + t.buffer;
          assert Eviction(all[0], s.cursor, all[0] !in s.received) in t.evictions;
        }
      } else {
        assert x in s.appended;
        var v :| v in s.evictions && v.entry == x;
        assert v in t.evictions;
      }
    }
    forall x | x in t.appended && start < x.id <= t.cursor
      ensures x in t.received || EvictedUnread(t, x)
    {
      assert x in s.appended;
      if x !in s.received {
        var v :| v in s.evictions && v.entry == x && v.unread && v.cursor < x.id;
        assert v in t.evictions;
      }
    }
  }

  lemma PollKeepsPaging(s: State, start: int, limit: nat, capacity: nat)
    requires Paged(s, start, capacity) && Ordered(s.appended)
    ensures Paged(Step(s, Poll(limit), capacity), start, capacity)
  {
    hide Page, NextSeq, OvertakenBy;
    var t := Step(s, Poll(limit), capacity);
    PageIsFirst(s.buffer, s.cursor, limit);
    forall x | x in t.appended && start < x.id <= t.cursor
      ensures x in t.received || EvictedUnread(t, x)
    {
      if x.id <= s.cursor {
        assert x in s.received || EvictedUnread(s, x);
      } else if x !in s.buffer {
        assert Evicted(s, x);
      }
    }
  }

  lemma BufferIsAppended(s: State, start: int, capacity: nat)
    requires Paged(s, start, capacity)
    ensures forall e :: e in s.buffer ==> e in s.appended
  {
  }

  lemma CursorStaysWithin(s: State, start: int, limit: nat, capacity: nat)
    requires Paged(s, start, capacity) && Ordered(s.appended)
    ensures var c := Step(s, Poll(limit), capacity).cursor;
      c == s.cursor || (s.appended != [] && c <= s.appended[|s.appended| - 1].id)
  {
    hide Paged;
    var page := Page(s.buffer, s.cursor, limit);
    NewerExact(s.buffer, s.cursor);
    if page != [] {
      var last := page[|page| - 1];
      BufferIsAppended(s, start, capacity);
      assert last in Newer(s.buffer, s.cursor);
      assert last in s.appended;
      var k :| 0 <= k < |s.appended| && s.appended[k] == last;
    }
  }

  lemma EmptyIsPaged(start: int, capacity: nat)
    ensures Paged(State([], [], start, [], [], {}, {}), start, capacity)
  {
  }

  // Entries reach the buffer in sequence order. The client may begin anywhere.
  predicate InOrder(start: int, actions: seq<Action>, capacity: nat) {
    actions == []
    || (var s := Run(start, actions[..|actions| - 1], capacity);
        var a := actions[|actions| - 1];
        && InOrder(start, actions[..|actions| - 1], capacity)
        && (a.Append? && s.appended != [] ==> s.appended[|s.appended| - 1].id < a.entry.id))
  }

  lemma StepAppends(s: State, a: Action, capacity: nat)
    ensures var t := Step(s, a, capacity);
      && t.appended == (if a.Append? then s.appended + [a.entry] else s.appended)
      && (a.Append? ==> t.cursor == s.cursor)
  {
  }

  lemma OrderedSnoc(entries: seq<Entry>, e: Entry)
    requires Ordered(entries) && (entries != [] ==> entries[|entries| - 1].id < e.id)
    ensures Ordered(entries + [e])
  {
  }

  lemma {:induction false} RunIsPaged(start: int, actions: seq<Action>, capacity: nat)
    requires InOrder(start, actions, capacity)
    ensures var s := Run(start, actions, capacity);
      && Ordered(s.appended) && Paged(s, start, capacity)
      && (s.cursor == start || (s.appended != [] && s.cursor <= s.appended[|s.appended| - 1].id))
  {
    hide Paged, Step;
    if actions == [] {
      EmptyIsPaged(start, capacity);
    } else {
      var before, a := actions[..|actions| - 1], actions[|actions| - 1];
      RunIsPaged(start, before, capacity);
      var s := Run(start, before, capacity);
      match a
      case Append(e) =>
        StepAppends(s, a, capacity);
        OrderedSnoc(s.appended, e);
        AppendKeepsPaging(s, start, e, capacity);
      case Poll(limit) =>
        StepAppends(s, a, capacity);
        PollKeepsPaging(s, start, limit, capacity);
        CursorStaysWithin(s, start, limit, capacity);
    }
  }

  // A client looping on next_seq while appends and evictions go on receives a strictly increasing
  // sequence, hence each entry at most once, and up to its cursor misses only entries that were
  // evicted before the cursor reached them.
  lemma ClientMissesOnlyEvicted(start: int, actions: seq<Action>, capacity: nat)
    requires InOrder(start, actions, capacity)
    ensures var s := Run(start, actions, capacity);
      && (forall i, j :: 0 <= i < j < |s.received| ==> s.received[i].id < s.received[j].id)
      && (forall e :: e in s.received ==> e in s.appended)
      && (forall e :: e in s.appended && start < e.id <= s.cursor && e !in s.received ==>
            exists v :: v in s.evictions && v.entry == e && v.unread && v.cursor < e.id)
  {
    RunIsPaged(start, actions, capacity);
  }

  // ---- Out of order ----

  // What the log handler guarantees whatever order its appends are scheduled in.
  ghost predicate DistinctIds(entries: seq<Entry>) {
    forall i, j :: 0 <= i < j < |entries| ==> entries[i].id != entries[j].id
  }

  // Passed by the cursor without being received, by one of the three causes.
  predicate Lost(s: State, e: Entry) {
    EvictedUnread(s, e) || e in s.late || e in s.overtaken
  }

  ghost predicate Accounted(s: State, capacity: nat) {
    && s.buffer == LastN(s.appended, capacity)
    && (forall e :: e in s.received ==> e in s.appended && !Lost(s, e))
    && (forall v :: v in s.evictions ==> v.entry in s.appended && v.entry !in s.buffer)
    && (forall e :: e in s.late || e in s.overtaken ==> e in s.appended && e.id <= s.cursor)
    && (forall e :: e in s.appended ==> e in s.received || Lost(s, e) || (e in s.buffer && s.cursor < e.id))
  }

  // With no assumption on order: the page lies in the buffer beyond the cursor, which never goes back.
  lemma PageIsNewer(buffer: seq<Entry>, since: int, limit: nat)
    ensures var page := Page(buffer, since, limit);
      && (forall e :: e in page ==> e in buffer && since < e.id)
      && since <= NextSeq(page, since)
  {
    NewerExact(buffer, since);
  }

  lemma NewerStep(buffer: seq<Entry>, since: int)
    requires buffer != []
    ensures Newer(buffer, since) == (if buffer[0].id > since then [buffer[0]] else []) + Newer(buffer[1..], since)
  {
  }

  lemma {:induction false} NewerAppend(a: seq<Entry>, b: seq<Entry>, since: int)
    ensures Newer(a + b, since) == Newer(a, since) + Newer(b, since)
  {
    if a == [] {
      assert [] + b == b;
    } else {
      hide Newer;
      NewerStep(a, since);
      NewerStep(a + b, since);
      NewerAppend(a[1..], b, since);
      assert (a + b)[1..] == a[1..] + b;
    }
  }

  // With distinct ids, a newer entry is left out of a page exactly when the page is full before it.
  lemma LeftOutExactly(buffer: seq<Entry>, since: int, limit: nat, i: nat)
    requires DistinctIds(buffer) && i < |buffer| && since < buffer[i].id
    ensures buffer[i] !in Page(buffer, since, limit) <==> CutBefore(buffer, since, limit, i)
  {
    var before, here, after := buffer[..i], [buffer[i]], buffer[i + 1..];
    assert buffer == before + (here + after);
    NewerAppend(before, here + after, since);
    NewerAppend(here, after, since);
    assert Newer(here, since) == here;
    NewerExact(before, since);
    var n, all := |Newer(before, since)|, Newer(buffer, since);
    assert all == Newer(before, since) + here + Newer(after, since) && all[n] == buffer[i];
    forall k | n < k < |all|
      ensures all[k] != buffer[i]
    {
      NewerExact(after, since);
      assert all[k] == Newer(after, since)[k - n - 1] && all[k] in after;
    }
    if n < limit {
      assert Page(buffer, since, limit)[n] == buffer[i];
    } else {
      assert Page(buffer, since, limit) == all[..if |all| <= limit then |all| else limit];
      assert forall k :: 0 <= k < n ==> all[k] in before;
    }
  }

  // So an entry is overtaken exactly when it is unread, newer, left out and passed.
  lemma OvertakenExactly(s: State, limit: nat, capacity: nat)
    requires s.buffer == LastN(s.appended, capacity) && DistinctIds(s.appended)
    ensures var page := Page(s.buffer, s.cursor, limit);
      forall e :: e in OvertakenBy(s, limit) <==>
        e in s.buffer && e !in s.received && s.cursor < e.id < NextSeq(page, s.cursor) && e !in page
  {
    hide Page, NextSeq, CutBefore;
    forall i | 0 <= i < |s.buffer| && s.cursor < s.buffer[i].id
      ensures s.buffer[i] !in Page(s.buffer, s.cursor, limit) <==> CutBefore(s.buffer, s.cursor, limit, i)
    {
      LeftOutExactly(s.buffer, s.cursor, limit, i);
    }
  }

  lemma KeptIsDistinct(entries: seq<Entry>, n: nat)
    requires DistinctIds(entries)
    ensures DistinctIds(LastN(entries, n))
  {
  }

  lemma PageEndsInside(buffer: seq<Entry>, since: int, limit: nat)
    requires DistinctIds(buffer)
    ensures var page := Page(buffer, since, limit);
      forall e :: e in buffer && since < e.id == NextSeq(page, since) ==> e in page
  {
    var page := Page(buffer, since, limit);
    PageIsNewer(buffer, since, limit);
    if page != [] {
      assert page[|page| - 1] in page;
    }
  }

  lemma AppendKeepsAccount(s: State, e: Entry, capacity: nat)
    requires Accounted(s, capacity) && DistinctIds(s.appended + [e])
    ensures Accounted(Step(s, Append(e), capacity), capacity)
  {
    hide LastN, DistinctIds;
    var t := Step(s, Append(e), capacity);
    PushBoundedIsSuffix(s.appended, e, capacity);
    NewEntry(s.appended, e);
    BufferMoves(s, e, capacity);
    AppendFindsAll(s, e, capacity);
    forall x | x in t.received
      ensures !Lost(t, x)
    {
      assert !EvictedUnread(s, x);
    }
  }

  // The new buffer is part of the old one and the new entry, without any entry ever evicted.
  lemma BufferMoves(s: State, e: Entry, capacity: nat)
    requires Accounted(s, capacity) && DistinctIds(s.appended + [e])
    ensures var t := Step(s, Append(e), capacity);
      && (forall v :: v in t.evictions ==> v.entry in t.appended && v.entry !in t.buffer)
  {
    var t := Step(s, Append(e), capacity);
    var all := s.buffer + [e];
    NewEntry(s.appended, e);
    LastNIsPart(s.appended, capacity);
    if |all| > capacity {
      FirstIsGone(s.appended + [e], all, capacity);
      assert all == [all[0]] + t.buffer;
    }
  }

  lemma AppendFindsAll(s: State, e: Entry, capacity: nat)
    requires Accounted(s, capacity)
    ensures var t := Step(s, Append(e), capacity);
      forall x :: x in t.appended ==> x in t.received || Lost(t, x) || (x in t.buffer && t.cursor < x.id)
  {
    var t := Step(s, Append(e), capacity);
    var all := s.buffer + [e];
    forall x | x in t.appended
      ensures x in t.received || Lost(t, x) || (x in t.buffer && t.cursor < x.id)
    {
      if EvictedUnread(s, x) {
        var v :| v in s.evictions && v.entry == x && v.unread && v.cursor < x.id;
        assert v in t.evictions;
      } else if x in all && x !in t.buffer {
        assert all == [all[0]] + t.buffer;
        assert Eviction(all[0], s.cursor, all[0] !in s.received) in t.evictions;
      }
    }
  }

  lemma NewEntry(entries: seq<Entry>, e: Entry)
    requires DistinctIds(entries + [e])
    ensures e !in entries
  {
    var all := entries + [e];
    assert all[|entries|] == e && forall i :: 0 <= i < |entries| ==> all[i] == entries[i];
  }

  lemma LastNIsPart(entries: seq<Entry>, n: nat)
    ensures forall e :: e in LastN(entries, n) ==> e in entries
  {
  }

  // The entry that falls out of the buffer is not in it a second time.
  lemma FirstIsGone(appended: seq<Entry>, all: seq<Entry>, capacity: nat)
    requires DistinctIds(appended) && |all| == capacity + 1 <= |appended| && all == appended[|appended| - |all|..]
    ensures all[0] !in all[1..] && all[0] in appended
  {
  }

  lemma PollKeepsAccount(s: State, limit: nat, capacity: nat)
    requires Accounted(s, capacity) && DistinctIds(s.appended)
    ensures Accounted(Step(s, Poll(limit), capacity), capacity)
  {
    hide Page, NextSeq, LastN, OvertakenBy;
    OvertakenExactly(s, limit, capacity);
    KeptIsDistinct(s.appended, capacity);
    PageEndsInside(s.buffer, s.cursor, limit);
    PageIsNewer(s.buffer, s.cursor, limit);
    LastNIsPart(s.appended, capacity);
    var t := Step(s, Poll(limit), capacity);
    forall e | e in t.received
      ensures !Lost(t, e)
    {
      if e in s.received {
        assert !EvictedUnread(s, e);
      }
    }
    forall e | e in t.appended
      ensures e in t.received || Lost(t, e) || (e in t.buffer && t.cursor < e.id)
    {
      assert EvictedUnread(s, e) ==> EvictedUnread(t, e);
    }
  }

  lemma {:induction false} RunIsAccounted(start: int, actions: seq<Action>, capacity: nat)
    requires DistinctIds(Run(start, actions, capacity).appended)
    ensures Accounted(Run(start, actions, capacity), capacity)
  {
    hide Accounted, Page, LastN;
    if actions == [] {
      EmptyIsAccounted(start, capacity);
    } else {
      var before, a := actions[..|actions| - 1], actions[|actions| - 1];
      var s := Run(start, before, capacity);
      assert s.appended <= Run(start, actions, capacity).appended;
      RunIsAccounted(start, before, capacity);
      match a
      case Append(e) => AppendKeepsAccount(s, e, capacity);
      case Poll(limit) => PollKeepsAccount(s, limit, capacity);
    }
  }

  lemma EmptyIsAccounted(start: int, capacity: nat)
    ensures Accounted(State([], [], start, [], [], {}, {}), capacity)
  {
  }

  // For every order of appends and every sequence of polls: an entry the cursor has reached was missed if
  // and only if it was evicted unread, appended at or below the cursor, or overtaken by a page that left
  // it out. In order, the last two do not happen to a client that began below the entry.
  lemma MissedExactly(start: int, actions: seq<Action>, capacity: nat, e: Entry)
    requires DistinctIds(Run(start, actions, capacity).appended)
    requires var s := Run(start, actions, capacity); e in s.appended && e.id <= s.cursor
    ensures var s := Run(start, actions, capacity);
      e !in s.received <==>
        || (exists v :: v in s.evictions && v.entry == e && v.unread && v.cursor < e.id)
        || e in s.late || e in s.overtaken
  {
    hide Run;
    RunIsAccounted(start, actions, capacity);
    var s := Run(start, actions, capacity);
    assert EvictedUnread(s, e) || e in s.received || Lost(s, e);
  }

  // The third cause is real: nothing was evicted and nothing came late, and yet a page of one overtakes.
  lemma CutPageOvertakes(capacity: nat)
    requires capacity >= 2
    ensures var s := Run(0, [Append(Entry(3, "c")), Append(Entry(1, "a")), Poll(1)], capacity);
      && Entry(1, "a") in s.appended && 1 <= s.cursor && Entry(1, "a") !in s.received
      && s.evictions == [] && s.late == {} && Entry(1, "a") in s.overtaken
  {
    var c, a := Entry(3, "c"), Entry(1, "a");
    var a2: seq<Action> := [Append(c), Append(a)];
    var a3: seq<Action> := [Append(c), Append(a), Poll(1)];
    assert a3[..2] == a2;
    var s2 := BothAppended(capacity);
    assert s2.buffer[1..] == [a] && s2.buffer[1..][1..] == [] && s2.buffer[..1] == [c];
    assert Newer(s2.buffer, 0) == [c] + Newer(s2.buffer[1..], 0) == [c, a];
    assert Page(s2.buffer, 0, 1) == [c];
    assert CutBefore(s2.buffer, 0, 1, 1) by {
      assert s2.buffer[..1][1..] == [];
      assert Newer(s2.buffer[..1], 0) == [c] + Newer([], 0);
    }
    assert s2.buffer[1] in OvertakenBy(s2, 1);
    assert Run(0, a3, capacity) == Step(s2, Poll(1), capacity);
  }

  lemma {:induction false} LateStays(start: int, actions: seq<Action>, more: seq<Action>, capacity: nat)
    ensures var s, t := Run(start, actions, capacity), Run(start, actions + more, capacity);
      s.late <= t.late && s.appended <= t.appended
    decreases |more|
  {
    hide Page;
    if more == [] {
      assert actions + more == actions;
    } else {
      var n := |more| - 1;
      LateStays(start, actions, more[..n], capacity);
      assert (actions + more)[..|actions + more| - 1] == actions + more[..n];
    }
  }

  // An entry appended at or below the cursor is in the buffer and yet never delivered, whatever follows.
  lemma OutOfOrderIsLost(start: int, before: seq<Action>, e: Entry, after: seq<Action>, capacity: nat)
    requires e.id <= Run(start, before, capacity).cursor
    requires DistinctIds(Run(start, before + [Append(e)] + after, capacity).appended)
    ensures capacity >= 1 ==> e in Run(start, before + [Append(e)], capacity).buffer
    ensures e !in Run(start, before + [Append(e)] + after, capacity).received
  {
    hide Page;
    var all := before + [Append(e)];
    assert all[..|all| - 1] == before;
    var s := Run(start, before, capacity);
    assert (s.buffer + [e])[|s.buffer|] == e;
    LateStays(start, all, after, capacity);
    RunIsAccounted(start, all + after, capacity);
  }

  // ---- Receiving an entry again ----

  function Receipts(s: State, e: Entry): nat {
    multiset(s.received)[e]
  }

  // The entry can still be delivered: it is buffered beyond the cursor.
  predicate Deliverable(s: State, e: Entry) {
    e in s.buffer && s.cursor < e.id
  }

  // Once appended, an entry that cannot be delivered never will be, and is not received meanwhile.
  lemma UndeliverableStays(s: State, a: Action, e: Entry, capacity: nat)
    requires e in s.appended && !Deliverable(s, e)
    requires DistinctIds(Step(s, a, capacity).appended)
    ensures var t := Step(s, a, capacity);
      e in t.appended && !Deliverable(t, e) && Receipts(t, e) == Receipts(s, e)
  {
    hide Page, NextSeq, OvertakenBy, LastN;
    match a
    case Append(x) =>
      NewEntry(s.appended, x);
      LastNIsPart(s.buffer + [x], capacity);
    case Poll(limit) =>
      PageIsNewer(s.buffer, s.cursor, limit);
      assert e !in Page(s.buffer, s.cursor, limit);
  }

  lemma {:induction false} UndeliverableForGood(start: int, before: seq<Action>, after: seq<Action>, capacity: nat,
                                                e: Entry)
    requires var s := Run(start, before, capacity); e in s.appended && !Deliverable(s, e)
    requires DistinctIds(Run(start, before + after, capacity).appended)
    ensures var s, t := Run(start, before, capacity), Run(start, before + after, capacity);
      e in t.appended && !Deliverable(t, e) && Receipts(t, e) == Receipts(s, e)
    decreases |after|
  {
    hide Step, Deliverable, Receipts;
    if after == [] {
      assert before + after == before;
    } else {
      var n := |after| - 1;
      var all := before + after;
      assert all[..|all| - 1] == before + after[..n];
      var t := Run(start, before + after[..n], capacity);
      StepAppends(t, after[n], capacity);
      assert t.appended <= Run(start, all, capacity).appended;
      UndeliverableForGood(start, before, after[..n], capacity, e);
      UndeliverableStays(t, after[n], e, capacity);
    }
  }

  lemma FullPollDelivers(start: int, before: seq<Action>, capacity: nat, e: Entry)
    requires Deliverable(Run(start, before, capacity), e)
    ensures var s := Run(start, before, capacity);
      var t := Run(start, before + [Poll(|s.buffer|)], capacity);
      Receipts(t, e) > Receipts(s, e) && t.appended == s.appended
  {
    hide OvertakenBy;
    var s := Run(start, before, capacity);
    var all := before + [Poll(|s.buffer|)];
    assert all[..|all| - 1] == before;
    NewerExact(s.buffer, s.cursor);
    NewerIsShort(s.buffer, s.cursor);
    assert e in Page(s.buffer, s.cursor, |s.buffer|);
  }

  lemma {:induction false} NewerIsShort(buffer: seq<Entry>, since: int)
    ensures |Newer(buffer, since)| <= |buffer|
  {
    if buffer != [] {
      NewerIsShort(buffer[1..], since);
    }
  }

  // In every run, and however the appends are ordered: an entry already appended, received or not, can be
  // received in some continuation if and only if it is still buffered with an id above the cursor. So a
  // received one can come again exactly when its page ended in a smaller id and it has not been evicted.
  lemma RepeatedExactly(start: int, before: seq<Action>, capacity: nat, e: Entry)
    requires e in Run(start, before, capacity).appended
    requires DistinctIds(Run(start, before, capacity).appended)
    ensures var s := Run(start, before, capacity);
      (exists after ::
          && DistinctIds(Run(start, before + after, capacity).appended)
          && Receipts(Run(start, before + after, capacity), e) > Receipts(s, e))
      <==> e in s.buffer && s.cursor < e.id
  {
    hide Run, Receipts;
    var s := Run(start, before, capacity);
    if Deliverable(s, e) {
      FullPollDelivers(start, before, capacity, e);
    } else {
      forall after | DistinctIds(Run(start, before + after, capacity).appended)
        ensures Receipts(Run(start, before + after, capacity), e) == Receipts(s, e)
      {
        UndeliverableForGood(start, before, after, capacity, e);
      }
    }
  }

  // And it does happen: two polls, three receipts.
  lemma ReceivedTwice(capacity: nat)
    requires capacity >= 2
    ensures var c, a := Entry(3, "c"), Entry(1, "a");
      Run(0, [Append(c), Append(a), Poll(9), Poll(9)], capacity).received == [c, a, c]
  {
    var c, a := Entry(3, "c"), Entry(1, "a");
    var a2: seq<Action> := [Append(c), Append(a)];
    var a3: seq<Action> := [Append(c), Append(a), Poll(9)];
    var a4: seq<Action> := [Append(c), Append(a), Poll(9), Poll(9)];
    assert a3[..2] == a2 && a4[..3] == a3;
    var s2 := BothAppended(capacity);
    assert s2.buffer[1..] == [a] && s2.buffer[1..][1..] == [];
    assert Newer(s2.buffer, 0) == [c] + Newer(s2.buffer[1..], 0) == [c, a];
    assert Newer(s2.buffer, 1) == [c] + Newer(s2.buffer[1..], 1) == [c];
    var s3 := Run(0, a3, capacity);
    assert s3 == Step(s2, Poll(9), capacity) && s3.received == [c, a] && s3.cursor == 1;
    assert Run(0, a4, capacity) == Step(s3, Poll(9), capacity);
  }

  lemma BothAppended(capacity: nat) returns (s: State)
    requires capacity >= 2
    ensures var c, a := Entry(3, "c"), Entry(1, "a");
      && s == Run(0, [Append(c), Append(a)], capacity)
      && s.buffer == [c, a] && s.received == [] && s.cursor == 0 && s.appended == [c, a]
      && s.evictions == [] && s.late == {} && s.overtaken == {}
  {
    var c, a := Entry(3, "c"), Entry(1, "a");
    var a0: seq<Action> := [];
    var a1: seq<Action> := [Append(c)];
    var a2: seq<Action> := [Append(c), Append(a)];
    assert a1[..0] == a0 && a2[..1] == a1;
    var s0, s1 := Run(0, a0, capacity), Run(0, a1, capacity);
    assert s1 == Step(s0, Append(c), capacity) && s1.buffer == [c];
    s := Run(0, a2, capacity);
    assert s == Step(s1, Append(a), capacity) && s.buffer == [c, a];
  }
}
