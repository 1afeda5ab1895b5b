// "Last N in chronological order" queries, and the turn indices that make them exact.
// A row's key is (first, second): a turn index and 0 for transcripts, creation time and row id for events.
module OrderedQuery {
  import opened Models

  datatype Row = Row(first: int, second: int, id: nat, text: string)

  predicate Before(a: Row, b: Row) {
    a.first < b.first || (a.first == b.first && a.second < b.second)
  }

  predicate SameKey(a: Row, b: Row) {
    a.first == b.first && a.second == b.second
  }

  ghost predicate Ascending(rows: seq<Row>) {
    forall i, j :: 0 <= i < j < |rows| ==> !Before(rows[j], rows[i])
  }

  function Reverse(rows: seq<Row>): (r: seq<Row>)
    ensures |r| == |rows| && forall i :: 0 <= i < |r| ==> r[i] == rows[|rows| - 1 - i]
  {
    if rows == [] then [] else Reverse(rows[1..]) + [rows[0]]
  }

  // Any answer the database may give: all rows, in an order its ORDER BY allows. Rows with equal
  // keys may come in either order.
  ghost predicate IsAscending(table: multiset<Row>, answer: seq<Row>) {
    multiset(answer) == table && Ascending(answer)
  }

  ghost predicate IsDescending(table: multiset<Row>, answer: seq<Row>) {
    multiset(answer) == table && Ascending(Reverse(answer))
  }

  // The limited getter: newest first, cut, put back in order.
  function Limited(descending: seq<Row>, limit: nat): seq<Row> {
    Reverse(if |descending| <= limit then descending else descending[..limit])
  }

  ghost predicate DistinctKeys(rows: seq<Row>) {
    forall i, j :: 0 <= i < j < |rows| ==> !SameKey(rows[i], rows[j])
  }

  lemma {:induction false} ReverseKeepsRows(rows: seq<Row>)
    ensures multiset(Reverse(rows)) == multiset(rows)
  {
    if rows != [] {
      ReverseKeepsRows(rows[1..]);
      assert rows == [rows[0]] + rows[1..];
    }
  }

  lemma SameFirst(a: seq<Row>, b: seq<Row>)
    requires multiset(a) == multiset(b) && Ascending(a) && Ascending(b) && DistinctKeys(a)
    requires a != [] && b != []
    ensures a[0] == b[0]
  {
    assert a[0] in multiset(b) && b[0] in multiset(a);
    var i :| 0 <= i < |b| && b[i] == a[0];
    var j :| 0 <= j < |a| && a[j] == b[0];
    assert !Before(a[j], a[0]) && !Before(b[i], b[0]);
  }

  lemma TailRows(a: seq<Row>)
    requires a != []
    ensures multiset(a[1..]) == multiset(a) - multiset{a[0]}
  {
    assert a == [a[0]] + a[1..];
  }

  // Two ascending answers over the same rows agree when the keys are distinct.
  lemma {:induction false} AscendingIsUnique(a: seq<Row>, b: seq<Row>)
    requires multiset(a) == multiset(b) && Ascending(a) && Ascending(b) && DistinctKeys(a)
    ensures a == b
  {
    assert |multiset(a)| == |multiset(b)|;
    if a != [] {
      SameFirst(a, b);
      TailRows(a);
      TailRows(b);
      AscendingIsUnique(a[1..], b[1..]);
      assert a == [a[0]] + a[1..] && b == [b[0]] + b[1..];
    }
  }

  // Cutting a reversed sequence keeps its end.
  lemma LimitedOfReverse(rows: seq<Row>, descending: seq<Row>, limit: nat)
    requires Reverse(descending) == rows
    ensures Limited(descending, limit) == LastN(rows, limit)
  {
    if |descending| > limit {
      var cut := descending[..limit];
      forall i | 0 <= i < limit
        ensures Reverse(cut)[i] == LastN(rows, limit)[i]
      {
        assert Reverse(cut)[i] == cut[limit - 1 - i];
        assert rows[|rows| - limit + i] == descending[limit - 1 - i];
      }
    }
  }

  // With distinct keys every limited answer is the suffix of every unlimited one.
  lemma LimitedIsSuffix(table: multiset<Row>, unlimited: seq<Row>, descending: seq<Row>, limit: nat)
    requires IsAscending(table, unlimited) && IsDescending(table, descending) && DistinctKeys(unlimited)
    ensures Limited(descending, limit) == LastN(unlimited, limit)
  {
    hide Reverse, Ascending, DistinctKeys;
    ReverseKeepsRows(descending);
    AscendingIsUnique(unlimited, Reverse(descending));
    LimitedOfReverse(unlimited, descending, limit);
  }

  // The event timeline is ordered by creation time and row id, and row ids are unique: whatever the times,
  // ties included, the limited answer is the end of the unlimited one.
  lemma EventLimitIsSuffix(table: multiset<Row>, unlimited: seq<Row>, descending: seq<Row>, limit: nat)
    requires IsAscending(table, unlimited) && IsDescending(table, descending)
    requires forall i :: 0 <= i < |unlimited| ==> unlimited[i].second == unlimited[i].id
    requires forall i, j :: 0 <= i < j < |unlimited| ==> unlimited[i].id != unlimited[j].id
    ensures Limited(descending, limit) == LastN(unlimited, limit)
  {
    hide IsAscending, IsDescending, Limited, LastN;
    LimitedIsSuffix(table, unlimited, descending, limit);
  }

  lemma ReverseTwice(rows: seq<Row>)
    ensures Reverse(Reverse(rows)) == rows
  {
    forall i | 0 <= i < |rows|
      ensures Reverse(Reverse(rows))[i] == rows[i]
    {
      assert Reverse(Reverse(rows))[i] == Reverse(rows)[|rows| - 1 - i];
    }
  }

  function Swapped(rows: seq<Row>, i: nat): (r: seq<Row>)
    requires i + 1 < |rows|
  {
    rows[i := rows[i + 1]][i + 1 := rows[i]]
  }

  lemma SwapKeepsOrder(rows: seq<Row>, i: nat)
    requires i + 1 < |rows| && Ascending(rows) && SameKey(rows[i], rows[i + 1])
    ensures multiset(Swapped(rows, i)) == multiset(rows) && Ascending(Swapped(rows, i))
    ensures |Swapped(rows, i)| == |rows| && Swapped(rows, i)[i] == rows[i + 1]
  {
  }

  lemma ReversedIsDescending(table: multiset<Row>, rows: seq<Row>)
    requires IsAscending(table, rows)
    ensures IsDescending(table, Reverse(rows))
  {
    hide Ascending, Reverse;
    ReverseKeepsRows(rows);
    ReverseTwice(rows);
  }

  // Without, the database may answer so that the two getters disagree.
  lemma TiesMayDisagree(table: multiset<Row>, unlimited: seq<Row>, i: nat) returns (descending: seq<Row>)
    requires IsAscending(table, unlimited)
    requires i + 1 < |unlimited| && SameKey(unlimited[i], unlimited[i + 1]) && unlimited[i] != unlimited[i + 1]
    ensures IsDescending(table, descending)
    ensures Limited(descending, |descending|) != LastN(unlimited, |descending|)
  {
    hide Ascending, Reverse, Limited, LastN, Swapped;
    var swapped := Swapped(unlimited, i);
    SwapKeepsOrder(unlimited, i);
    ReversedIsDescending(table, swapped);
    descending := Reverse(swapped);
    ReverseTwice(swapped);
    LimitedOfReverse(swapped, descending, |descending|);
    LastNOfAll(swapped);
    LastNOfAll(unlimited);
  }

  lemma LastNOfAll(rows: seq<Row>)
    ensures LastN(rows, |rows|) == rows
  {
  }

  // Equal keys in an ascending answer appear side by side.
  lemma TiesAreAdjacent(rows: seq<Row>, i: nat, j: nat)
    requires Ascending(rows) && i < j < |rows| && SameKey(rows[i], rows[j])
    ensures SameKey(rows[i], rows[i + 1])
  {
    assert i + 1 < j ==> !Before(rows[i + 1], rows[i]) && !Before(rows[j], rows[i + 1]);
  }

  // So the limited getter returns the last N, whatever orders the database chooses, exactly when the
  // keys are distinct.
  lemma SuffixIffDistinct(table: multiset<Row>, unlimited: seq<Row>)
    requires IsAscending(table, unlimited)
    requires forall i, j :: 0 <= i < j < |unlimited| ==> unlimited[i].id != unlimited[j].id
    ensures DistinctKeys(unlimited) <==>
      forall descending, limit: nat :: IsDescending(table, descending)
        ==> Limited(descending, limit) == LastN(unlimited, limit)
  {
    if DistinctKeys(unlimited) {
      forall descending, limit: nat | IsDescending(table, descending)
        ensures Limited(descending, limit) == LastN(unlimited, limit)
      {
        LimitedIsSuffix(table, unlimited, descending, limit);
      }
    } else {
      var i, j :| 0 <= i < j < |unlimited| && SameKey(unlimited[i], unlimited[j]);
      TiesAreAdjacent(unlimited, i, j);
      var descending := TiesMayDisagree(table, unlimited, i);
    }
  }

  // ---- Turn indices of one session ----

  // Turns take their index when their save task starts; the saves commit in any order, or fail.
  datatype Turns = Turns(counter: nat, saving: set<nat>, rows: seq<Row>)

  datatype Action = Speak | Commit(index: nat, text: string) | Fail(index: nat)

  function Step(t: Turns, a: Action): Option<Turns> {
    match a
    case Speak => Some(Turns(t.counter + 1, t.saving + {t.counter}, t.rows))
    case Commit(index, text) =>
      if index in t.saving
      then Some(t.(saving := t.saving - {index}, rows := t.rows + [Row(index, 0, |t.rows|, text)]))
      else None
    case Fail(index) => if index in t.saving then Some(t.(saving := t.saving - {index})) else None
  }

  function Run(actions: seq<Action>): Option<Turns> {
    if actions == [] then Some(Turns(0, {}, []))
    else
      var before := Run(actions[..|actions| - 1]);
      if before.None? then None else Step(before.value, actions[|actions| - 1])
  }

  ghost predicate IndicesUnique(t: Turns) {
    && (forall n :: n in t.saving ==> n < t.counter)
    && (forall i :: 0 <= i < |t.rows| ==>
          0 <= t.rows[i].first < t.counter && t.rows[i].first !in t.saving && t.rows[i].id == i
            && t.rows[i].second == 0)
    && (forall i, j :: 0 <= i < j < |t.rows| ==> t.rows[i].first != t.rows[j].first)
  }

  lemma {:induction false} IndicesStayUnique(actions: seq<Action>)
    requires Run(actions).Some?
    ensures IndicesUnique(Run(actions).value)
  {
    if actions != [] {
      IndicesStayUnique(actions[..|actions| - 1]);
    }
  }

  // For every interleaving of a session's saves, the limited transcript is the end of the full one.
  lemma TranscriptLimitIsSuffix(actions: seq<Action>, unlimited: seq<Row>, descending: seq<Row>, limit: nat)
    requires Run(actions).Some?
    requires IsAscending(multiset(Run(actions).value.rows), unlimited)
    requires IsDescending(multiset(Run(actions).value.rows), descending)
    ensures Limited(descending, limit) == LastN(unlimited, limit)
  {
    var rows := Run(actions).value.rows;
    IndicesStayUnique(actions);
    PermutationKeepsDistinctKeys(rows, unlimited);
    LimitedIsSuffix(multiset(rows), unlimited, descending, limit);
  }

  lemma PermutationKeepsDistinctKeys(rows: seq<Row>, other: seq<Row>)
    requires multiset(rows) == multiset(other)
    requires forall i, j :: 0 <= i < j < |rows| ==> !SameKey(rows[i], rows[j])
    ensures DistinctKeys(other)
  {
    forall i, j | 0 <= i < j < |other|
      ensures !SameKey(other[i], other[j])
    {
      assert other[i] in multiset(rows) && other[j] in multiset(rows);
      if SameKey(other[i], other[j]) {
        var m :| 0 <= m < |rows| && rows[m] == other[i];
        var n :| 0 <= n < |rows| && rows[n] == other[j];
        assert m == n;
        TwiceInMultiset(other, i, j);
        OnceInMultiset(rows, m);
      }
    }
  }

  lemma TwiceInMultiset(rows: seq<Row>, i: nat, j: nat)
    requires i < j < |rows| && rows[i] == rows[j]
    ensures multiset(rows)[rows[i]] >= 2
  {
    assert rows == rows[..i] + [rows[i]] + rows[i + 1..j] + [rows[j]] + rows[j + 1..];
  }

  lemma OnceInMultiset(rows: seq<Row>, m: nat)
    requires m < |rows| && forall i :: 0 <= i < |rows| && i != m ==> rows[i] != rows[m]
    ensures multiset(rows)[rows[m]] == 1
  {
    assert rows == rows[..m] + [rows[m]] + rows[m + 1..];
    assert rows[m] !in rows[..m] && rows[m] !in rows[m + 1..];
  }
}
