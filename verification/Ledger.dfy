// Token totals, per call and global.
module Ledger {
  datatype Usage = Usage(
    callId: string, total: nat, input: nat, output: nat, inputText: nat, inputAudio: nat,
    inputCached: nat, outputText: nat, outputAudio: nat)

  datatype Totals = Totals(
    total: nat, input: nat, output: nat, inputText: nat, inputAudio: nat,
    inputCached: nat, outputText: nat, outputAudio: nat, responses: nat, cost: real)

  datatype Prices = Prices(inputAudio: real, outputAudio: real, inputText: real, outputText: real, inputCached: real)

  const ZERO := Totals(0, 0, 0, 0, 0, 0, 0, 0, 0, 0.0)

  // Prices are per thousand tokens.
  function ComputeCost(u: Usage, p: Prices): real {
    u.inputAudio as real * p.inputAudio / 1000.0
    + u.outputAudio as real * p.outputAudio / 1000.0
    + u.inputText as real * p.inputText / 1000.0
    + u.outputText as real * p.outputText / 1000.0
    + u.inputCached as real * p.inputCached / 1000.0
  }

  lemma CostIsNeverNegative(u: Usage, p: Prices)
    requires p.inputAudio >= 0.0 && p.outputAudio >= 0.0 && p.inputText >= 0.0 && p.outputText >= 0.0
      && p.inputCached >= 0.0
    ensures ComputeCost(u, p) >= 0.0
  {
    NonNegativeProduct(u.inputAudio, p.inputAudio);
    NonNegativeProduct(u.outputAudio, p.outputAudio);
    NonNegativeProduct(u.inputText, p.inputText);
    NonNegativeProduct(u.outputText, p.outputText);
    NonNegativeProduct(u.inputCached, p.inputCached);
  }

  lemma NonNegativeProduct(n: nat, p: real)
    requires p >= 0.0
    ensures n as real * p / 1000.0 >= 0.0
  {
  }

  // Usage costs what its parts cost.
  lemma CostAdds(u: Usage, v: Usage, w: Usage, p: Prices)
    requires w.inputAudio == u.inputAudio + v.inputAudio && w.outputAudio == u.outputAudio + v.outputAudio
    requires w.inputText == u.inputText + v.inputText && w.outputText == u.outputText + v.outputText
    requires w.inputCached == u.inputCached + v.inputCached
    ensures ComputeCost(w, p) == ComputeCost(u, p) + ComputeCost(v, p)
  {
    ProductAdds(u.inputAudio, v.inputAudio, p.inputAudio);
    ProductAdds(u.outputAudio, v.outputAudio, p.outputAudio);
    ProductAdds(u.inputText, v.inputText, p.inputText);
    ProductAdds(u.outputText, v.outputText, p.outputText);
    ProductAdds(u.inputCached, v.inputCached, p.inputCached);
  }

  lemma ProductAdds(m: nat, n: nat, p: real)
    ensures (m + n) as real * p / 1000.0 == m as real * p / 1000.0 + n as real * p / 1000.0
  {
  }

  // A thousand tokens of one kind cost its price.
  lemma ThousandTokens(u: Usage, p: Prices)
    ensures var kinds := [u.inputAudio, u.outputAudio, u.inputText, u.outputText, u.inputCached];
      var c := ComputeCost(u, p);
      && (kinds == [1000, 0, 0, 0, 0] ==> c == p.inputAudio)
      && (kinds == [0, 1000, 0, 0, 0] ==> c == p.outputAudio)
      && (kinds == [0, 0, 1000, 0, 0] ==> c == p.inputText)
      && (kinds == [0, 0, 0, 1000, 0] ==> c == p.outputText)
      && (kinds == [0, 0, 0, 0, 1000] ==> c == p.inputCached)
  {
    assert [u.inputAudio, u.outputAudio, u.inputText, u.outputText, u.inputCached][0] == u.inputAudio;
  }

  function Plus(a: Totals, b: Totals): Totals {
    Totals(a.total + b.total, a.input + b.input, a.output + b.output, a.inputText + b.inputText,
           a.inputAudio + b.inputAudio, a.inputCached + b.inputCached, a.outputText + b.outputText,
           a.outputAudio + b.outputAudio, a.responses + b.responses, a.cost + b.cost)
  }

  // One usage report as totals.
  function One(u: Usage, cost: real): Totals {
    Totals(u.total, u.input, u.output, u.inputText, u.inputAudio, u.inputCached, u.outputText, u.outputAudio, 1, cost)
  }

  // The store's token state: one aggregate per registered call, and the global one.
  datatype Book = Book(calls: map<string, Totals>, global: Totals)

  function RecordUsage(b: Book, u: Usage, cost: real): Book {
    Book(if u.callId in b.calls then b.calls[u.callId := Plus(b.calls[u.callId], One(u, cost))] else b.calls,
         Plus(b.global, One(u, cost)))
  }

  // create_call stores a record with empty totals, replacing whatever had that id.
  function Register(b: Book, callId: string): Book {
    b.(calls := b.calls[callId := ZERO])
  }

  // load_recent_cdrs inserts past totals for ids not yet present.
  function Preload(b: Book, callId: string, totals: Totals): Book {
    if callId in b.calls then b else b.(calls := b.calls[callId := totals])
  }

  // update_call files a record under its id whatever is there: a record that a later registration had
  // replaced comes back.
  function Restore(b: Book, callId: string, totals: Totals): Book {
    b.(calls := b.calls[callId := totals])
  }

  function PreloadAll(b: Book, cdrs: seq<(string, Totals)>): Book {
    if cdrs == [] then b
    else
      var last := cdrs[|cdrs| - 1];
      Preload(PreloadAll(b, cdrs[..|cdrs| - 1]), last.0, last.1)
  }

  // ---- Conservation ----

  datatype Operation =
    | Used(usage: Usage, cost: real)
    | Registered(callId: string)
    | Preloaded(callId: string, totals: Totals)
    | Restored(callId: string, totals: Totals)

  function Apply(b: Book, op: Operation): Book {
    match op
    case Used(u, cost) => RecordUsage(b, u, cost)
    case Registered(id) => Register(b, id)
    case Preloaded(id, totals) => Preload(b, id, totals)
    case Restored(id, totals) => Restore(b, id, totals)
  }

  function After(ops: seq<Operation>): Book {
    if ops == [] then Book(map[], ZERO) else Apply(After(ops[..|ops| - 1]), ops[|ops| - 1])
  }

  // What an operation moves outside the per-call records: usage of unregistered calls, totals lost
  // with a replaced record, totals that arrive with a record, preloaded or restored.
  function UnknownBy(b: Book, op: Operation): Totals {
    if op.Used? && op.usage.callId !in b.calls then One(op.usage, op.cost) else ZERO
  }

  function ReplacedBy(b: Book, op: Operation): Totals {
    if (op.Registered? || op.Restored?) && op.callId in b.calls then b.calls[op.callId] else ZERO
  }

  function LoadedBy(b: Book, op: Operation): Totals {
    if op.Restored? || (op.Preloaded? && op.callId !in b.calls) then op.totals else ZERO
  }

  function Unknown(ops: seq<Operation>): Totals {
    if ops == [] then ZERO
    else Plus(Unknown(ops[..|ops| - 1]), UnknownBy(After(ops[..|ops| - 1]), ops[|ops| - 1]))
  }

  function Replaced(ops: seq<Operation>): Totals {
    if ops == [] then ZERO
    else Plus(Replaced(ops[..|ops| - 1]), ReplacedBy(After(ops[..|ops| - 1]), ops[|ops| - 1]))
  }

  function Loaded(ops: seq<Operation>): Totals {
    if ops == [] then ZERO
    else Plus(Loaded(ops[..|ops| - 1]), LoadedBy(After(ops[..|ops| - 1]), ops[|ops| - 1]))
  }

  // The sum of all per-call totals.
  ghost function Sum(calls: map<string, Totals>): Totals
    decreases |calls|
  {
    if calls == map[] then ZERO
    else
      var id :| id in calls;
      Plus(calls[id], Sum(calls - {id}))
  }

  lemma PlusSwaps(a: Totals, b: Totals, c: Totals)
    ensures Plus(a, Plus(b, c)) == Plus(b, Plus(a, c))
  {
  }

  lemma {:induction false} SumWithout(calls: map<string, Totals>, id: string)
    requires id in calls
    ensures Sum(calls) == Plus(calls[id], Sum(calls - {id}))
    decreases |calls|
  {
    hide Plus;
    var first :| first in calls && Sum(calls) == Plus(calls[first], Sum(calls - {first}));
    if first != id {
      SumWithout(calls - {first}, id);
      SumWithout(calls - {id}, first);
      assert calls - {first} - {id} == calls - {id} - {first};
      PlusSwaps(calls[first], calls[id], Sum(calls - {id} - {first}));
    }
  }

  lemma SumUpdated(calls: map<string, Totals>, id: string, t: Totals)
    ensures id in calls ==> Plus(Sum(calls[id := t]), calls[id]) == Plus(Sum(calls), t)
    ensures id !in calls ==> Sum(calls[id := t]) == Plus(Sum(calls), t)
  {
    SumWithout(calls[id := t], id);
    assert calls[id := t] - {id} == calls - {id};
    if id in calls {
      SumWithout(calls, id);
    } else {
      assert calls - {id} == calls;
    }
  }

  // Global usage plus loaded totals against the records, the unknown usage and the replaced records.
  ghost predicate Balanced(b: Book, loaded: Totals, unknown: Totals, replaced: Totals) {
    Plus(b.global, loaded) == Plus(Plus(Sum(b.calls), unknown), replaced)
  }

  // Filing a record under an id, whatever was there.
  lemma StoringBalances(b: Book, id: string, t: Totals, loaded: Totals, unknown: Totals, replaced: Totals)
    requires Balanced(b, loaded, unknown, replaced)
    ensures Balanced(Book(b.calls[id := t], b.global), Plus(loaded, t), unknown,
                     Plus(replaced, if id in b.calls then b.calls[id] else ZERO))
  {
    hide Sum;
    SumUpdated(b.calls, id, t);
  }

  lemma UsingBalances(b: Book, u: Usage, cost: real, loaded: Totals, unknown: Totals, replaced: Totals)
    requires Balanced(b, loaded, unknown, replaced)
    ensures Balanced(RecordUsage(b, u, cost), loaded, Plus(unknown, UnknownBy(b, Used(u, cost))), replaced)
  {
    hide Sum, One;
    if u.callId in b.calls {
      SumUpdated(b.calls, u.callId, Plus(b.calls[u.callId], One(u, cost)));
    }
  }

  lemma OperationBalances(b: Book, op: Operation, loaded: Totals, unknown: Totals, replaced: Totals)
    requires Balanced(b, loaded, unknown, replaced)
    ensures Balanced(Apply(b, op), Plus(loaded, LoadedBy(b, op)), Plus(unknown, UnknownBy(b, op)),
      Plus(replaced, ReplacedBy(b, op)))
  {
    hide Balanced, Plus;
    PlusZero(loaded);
    PlusZero(unknown);
    PlusZero(replaced);
    match op
    case Used(u, cost) => UsingBalances(b, u, cost, loaded, unknown, replaced);
    case Registered(id) => StoringBalances(b, id, ZERO, loaded, unknown, replaced);
    case Preloaded(id, totals) =>
      if id !in b.calls {
        StoringBalances(b, id, totals, loaded, unknown, replaced);
      }
    case Restored(id, totals) => StoringBalances(b, id, totals, loaded, unknown, replaced);
  }

  // Nothing is lost or invented: at all times, global usage plus loaded totals equals the per-call records plus
  // the usage of unregistered calls plus what replaced records held.
  lemma {:induction false} TokensAreConserved(ops: seq<Operation>)
    ensures Plus(After(ops).global, Loaded(ops)) ==
      Plus(Plus(Sum(After(ops).calls), Unknown(ops)), Replaced(ops))
  {
    hide Sum, Apply, LoadedBy, UnknownBy, ReplacedBy;
    if ops == [] {
      NothingIsBalanced();
    } else {
      var before, op := ops[..|ops| - 1], ops[|ops| - 1];
      TokensAreConserved(before);
      OperationBalances(After(before), op, Loaded(before), Unknown(before), Replaced(before));
    }
  }

  lemma PlusZero(a: Totals)
    ensures Plus(a, ZERO) == a == Plus(ZERO, a)
  {
  }

  lemma NothingIsBalanced()
    ensures Balanced(Book(map[], ZERO), ZERO, ZERO, ZERO)
  {
    hide Plus;
    PlusZero(ZERO);
    assert Sum(map[]) == ZERO;
  }

  // Every record stored was current: registrations use fresh ids, and updates store the record there is.
  predicate Current(ops: seq<Operation>) {
    forall i :: 0 <= i < |ops| ==>
      && !ops[i].Preloaded?
      && (ops[i].Registered? ==> ops[i].callId !in After(ops[..i]).calls)
      && (ops[i].Restored? ==>
            ops[i].callId in After(ops[..i]).calls && After(ops[..i]).calls[ops[i].callId] == ops[i].totals)
  }

  // With distinct call ids and no preload, the global counters are the sum over the calls plus unknown usage.
  lemma GlobalIsSumOfCalls(ops: seq<Operation>)
    requires Current(ops)
    ensures After(ops).global == Plus(Sum(After(ops).calls), Unknown(ops))
  {
    hide After, Sum, Loaded, Unknown, Replaced, Current;
    TokensAreConserved(ops);
    NothingReplaced(ops);
    PlusCancels(After(ops).global, Plus(Sum(After(ops).calls), Unknown(ops)), Loaded(ops));
  }

  lemma PlusCancels(a: Totals, b: Totals, c: Totals)
    requires Plus(a, c) == Plus(b, c)
    ensures a == b
  {
  }

  // What such operations replace is what they load.
  lemma {:induction false} NothingReplaced(ops: seq<Operation>)
    requires Current(ops)
    ensures Loaded(ops) == Replaced(ops)
  {
    hide After, Plus;
    if ops != [] {
      var n := |ops| - 1;
      assert forall i :: 0 <= i < n ==> ops[..n][..i] == ops[..i];
      NothingReplaced(ops[..n]);
    }
  }

  // ---- What each counter counts ----

  // The sum of a field over the reported usage, and of the costs.
  function Reported(ops: seq<Operation>, field: Usage -> nat): nat {
    if ops == [] then 0
    else
      var op := ops[|ops| - 1];
      Reported(ops[..|ops| - 1], field) + (if op.Used? then field(op.usage) else 0)
  }

  function Charged(ops: seq<Operation>, counts: Usage -> bool): real {
    if ops == [] then 0.0
    else
      var op := ops[|ops| - 1];
      Charged(ops[..|ops| - 1], counts) + (if op.Used? && counts(op.usage) then op.cost else 0.0)
  }

  function AnyCall(): Usage -> bool { u => true }

  function OfCall(id: string): Usage -> bool { (u: Usage) => u.callId == id }

  // The totals counted from nothing over the usage of some calls.
  ghost predicate Counts(t: Totals, ops: seq<Operation>, of: Usage -> bool) {
    && t.total == Reported(ops, (u: Usage) => if of(u) then u.total else 0)
    && t.input == Reported(ops, (u: Usage) => if of(u) then u.input else 0)
    && t.output == Reported(ops, (u: Usage) => if of(u) then u.output else 0)
    && t.inputText == Reported(ops, (u: Usage) => if of(u) then u.inputText else 0)
    && t.inputAudio == Reported(ops, (u: Usage) => if of(u) then u.inputAudio else 0)
    && t.inputCached == Reported(ops, (u: Usage) => if of(u) then u.inputCached else 0)
    && t.outputText == Reported(ops, (u: Usage) => if of(u) then u.outputText else 0)
    && t.outputAudio == Reported(ops, (u: Usage) => if of(u) then u.outputAudio else 0)
    && t.responses == Reported(ops, (u: Usage) => if of(u) then 1 else 0)
    && t.cost == Charged(ops, of)
  }

  lemma NothingCounts(of: Usage -> bool)
    ensures Counts(ZERO, [], of)
  {
  }

  lemma CountsStep(t: Totals, ops: seq<Operation>, of: Usage -> bool)
    requires ops != [] && Counts(t, ops[..|ops| - 1], of)
    ensures var op := ops[|ops| - 1];
      Counts(if op.Used? && of(op.usage) then Plus(t, One(op.usage, op.cost)) else t, ops, of)
  {
  }

  lemma ApplyCounts(b: Book, op: Operation, id: string)
    ensures Apply(b, op).global == if op.Used? then Plus(b.global, One(op.usage, op.cost)) else b.global
    ensures op == Registered(id) ==> id in Apply(b, op).calls && Apply(b, op).calls[id] == ZERO
    ensures id in b.calls && (op.Registered? || op.Restored? ==> op.callId != id) ==>
      && id in Apply(b, op).calls
      && Apply(b, op).calls[id] ==
           if op.Used? && op.usage.callId == id then Plus(b.calls[id], One(op.usage, op.cost)) else b.calls[id]
  {
    hide Plus, One;
  }

  // The global counters sum all usage ever reported, field by field, and count the reports.
  lemma {:induction false} GlobalCounts(ops: seq<Operation>)
    ensures Counts(After(ops).global, ops, AnyCall())
  {
    hide Plus, One, Counts, Apply, ZERO;
    if ops == [] {
      NothingCounts(AnyCall());
    } else {
      var before, op := ops[..|ops| - 1], ops[|ops| - 1];
      GlobalCounts(before);
      CountsStep(After(before).global, ops, AnyCall());
      ApplyCounts(After(before), op, "");
    }
  }

  // A call's counters sum the usage reported for it since it was registered, whatever happens to other calls.
  lemma {:induction false} CallCounts(before: seq<Operation>, id: string, later: seq<Operation>)
    requires forall i :: 0 <= i < |later| ==>
      (later[i].Registered? || later[i].Restored? ==> later[i].callId != id)
    ensures var b := After(before + [Registered(id)] + later);
      id in b.calls && Counts(b.calls[id], later, OfCall(id))
  {
    hide Plus, One, Counts, Apply, ZERO;
    var ops := before + [Registered(id)] + later;
    var front, op := ops[..|ops| - 1], ops[|ops| - 1];
    ApplyCounts(After(front), op, id);
    if later == [] {
      NothingCounts(OfCall(id));
    } else {
      var n := |later| - 1;
      CallCounts(before, id, later[..n]);
      assert front == before + [Registered(id)] + later[..n] && op == later[n];
      CountsStep(After(front).calls[id], later, OfCall(id));
    }
  }
}
