// From the event bus through its bounded queue and the broadcast loop to the dashboard clients.
module EventDelivery {
  import opened Models

  const QUEUE_SIZE := 256

  datatype Message = Message(topic: string, payload: string)

  // put_nowait, with QueueFull swallowed
  function Offer(items: seq<Message>, m: Message): seq<Message> {
    if |items| < QUEUE_SIZE then items + [m] else items
  }

  function OfferTimes(items: seq<Message>, m: Message, n: nat): seq<Message> {
    if n == 0 then items else Offer(OfferTimes(items, m, n - 1), m)
  }

  // Offered n times, the message is taken as often as there is room.
  lemma {:induction false} OfferTimesExact(items: seq<Message>, m: Message, n: nat)
    ensures var room := if |items| < 256 then 256 - |items| else 0;
      OfferTimes(items, m, n) == items + seq(if n < room then n else room, _ => m)
  {
    if n > 0 {
      OfferTimesExact(items, m, n - 1);
    }
  }

  // ---- The bus ----

  class Queue {
    var items: seq<Message>

    constructor ()
      ensures items == []
    {
      items := [];
    }
  }

  function Occurrences(qs: seq<Queue>, q: Queue): nat {
    if qs == [] then 0 else Occurrences(qs[..|qs| - 1], q) + (if qs[|qs| - 1] == q then 1 else 0)
  }

  // list.remove(q), with ValueError swallowed: the first occurrence goes.
  function RemoveFirst(qs: seq<Queue>, q: Queue): seq<Queue> {
    if qs == [] then [] else if qs[0] == q then qs[1..] else [qs[0]] + RemoveFirst(qs[1..], q)
  }

  lemma {:induction false} RemoveUndoesAppend(qs: seq<Queue>, q: Queue, more: seq<Queue>)
    requires q !in qs
    ensures RemoveFirst(qs + [q] + more, q) == qs + more
  {
    if qs == [] {
      assert [] + [q] + more == [q] + more;
      assert ([q] + more)[1..] == more == qs + more;
    } else {
      var all := qs + [q] + more;
      assert all[1..] == qs[1..] + [q] + more;
      RemoveUndoesAppend(qs[1..], q, more);
      assert qs + more == [qs[0]] + (qs[1..] + more);
    }
  }

  class EventBus {
    var subscribers: map<string, seq<Queue>>

    constructor ()
      ensures subscribers == map[]
    {
      subscribers := map[];
    }

    function On(topic: string): seq<Queue>
      reads this
    {
      if topic in subscribers then subscribers[topic] else []
    }

    // Each subscription of the topic is offered the message once; a full queue drops it.
    method Publish(m: Message)
      modifies On(m.topic)
      ensures forall q :: q in On(m.topic) ==>
        q.items == OfferTimes(old(q.items), m, Occurrences(On(m.topic), q))
    {
      var queues := On(m.topic);
      for i := 0 to |queues|
        invariant queues == On(m.topic)
        invariant forall q :: q in queues ==> q.items == OfferTimes(old(q.items), m, Occurrences(queues[..i], q))
      {
        var q := queues[i];
        assert queues[..i + 1][..i] == queues[..i];
        if |q.items| < QUEUE_SIZE {
          q.items := q.items + [m];
        }
      }
      assert queues[..|queues|] == queues;
    }

    // Subscribing appends the new queue to each topic's list, in the order of the arguments.
    method Subscribe(topics: seq<string>) returns (queue: Queue)
      modifies this
      ensures fresh(queue) && queue.items == []
      ensures forall topic :: On(topic) == old(On(topic)) + Copies(queue, CountOf(topics, topic))
    {
      queue := new Queue();
      for i := 0 to |topics|
        invariant queue.items == []
        invariant forall topic :: On(topic) == old(On(topic)) + Copies(queue, CountOf(topics[..i], topic))
      {
        var topic := topics[i];
        subscribers := subscribers[topic := On(topic) + [queue]];
        assert topics[..i + 1][..i] == topics[..i];
      }
      assert topics[..|topics|] == topics;
    }

    // Leaving removes one occurrence of the queue per listed topic.
    method Unsubscribe(queue: Queue, topics: seq<string>)
      modifies this
      ensures forall topic :: On(topic) == RemoveTimes(old(On(topic)), queue, CountOf(topics, topic))
    {
      for i := 0 to |topics|
        invariant forall topic :: On(topic) == RemoveTimes(old(On(topic)), queue, CountOf(topics[..i], topic))
      {
        var topic := topics[i];
        subscribers := subscribers[topic := RemoveFirst(On(topic), queue)];
        assert topics[..i + 1][..i] == topics[..i];
      }
      assert topics[..|topics|] == topics;
    }
  }

  function RemoveTimes(qs: seq<Queue>, q: Queue, n: nat): seq<Queue> {
    if n == 0 then qs else RemoveFirst(RemoveTimes(qs, q, n - 1), q)
  }

  // Leaving undoes subscribing, whoever subscribed in between.
  lemma {:induction false} LeavingUndoesSubscribing(qs: seq<Queue>, q: Queue, n: nat, more: seq<Queue>)
    requires q !in qs
    ensures RemoveTimes(qs + Copies(q, n) + more, q, n) == qs + more
  {
    if n == 0 {
      assert qs + [] + more == qs + more;
    } else {
      assert qs + Copies(q, n) + more == qs + Copies(q, n - 1) + ([q] + more);
      LeavingUndoesSubscribing(qs, q, n - 1, [q] + more);
      assert qs + ([q] + more) == qs + [q] + more;
      RemoveUndoesAppend(qs, q, more);
    }
  }

  function CountOf(topics: seq<string>, topic: string): nat {
    if topics == [] then 0
      else CountOf(topics[..|topics| - 1], topic) + (if topics[|topics| - 1] == topic then 1 else 0)
  }

  function Copies(q: Queue, n: nat): seq<Queue> {
    if n == 0 then [] else Copies(q, n - 1) + [q]
  }

  lemma {:induction false} CopiesExact(q: Queue, n: nat)
    ensures Copies(q, n) == seq(n, _ => q)
  {
    if n > 0 {
      CopiesExact(q, n - 1);
    }
  }

  // What the counts of topics and of subscriptions mean.
  lemma {:induction false} CountOfExact(topics: seq<string>, topic: string)
    ensures CountOf(topics, topic) == multiset(topics)[topic]
  {
    if topics != [] {
      var front, last := topics[..|topics| - 1], topics[|topics| - 1];
      assert topics == front + [last];
      CountOfExact(front, topic);
    }
  }

  lemma {:induction false} OccurrencesExact(qs: seq<Queue>, q: Queue)
    ensures Occurrences(qs, q) == multiset(qs)[q]
  {
    if qs != [] {
      var front, last := qs[..|qs| - 1], qs[|qs| - 1];
      assert qs == front + [last];
      OccurrencesExact(front, q);
    }
  }

  // ---- One broadcast round, undisturbed ----

  predicate IsListing(order: seq<nat>, clients: set<nat>) {
    && (set c | c in order) == clients
    && (forall i, j :: 0 <= i < j < |order| ==> order[i] != order[j])
  }

  lemma NextListed(order: seq<nat>, clients: set<nat>, i: nat)
    requires IsListing(order, clients) && i < |order|
    ensures order[i] in clients && order[i] !in order[..i]
    ensures forall c :: c in order[..i + 1] <==> c in order[..i] || c == order[i]
  {
    assert order[i] in (set c | c in order);
    assert order[..i + 1] == order[..i] + [order[i]];
  }

  lemma AllListed(order: seq<nat>, clients: set<nat>)
    requires IsListing(order, clients)
    ensures forall c :: c in order[..|order|] <==> c in clients
  {
    assert order[..|order|] == order;
    assert forall c :: c in (set x | x in order) <==> c in order;
  }

  class WSManager {
    var connections: set<nat>
    var sent: map<nat, seq<Message>>   // what each client's socket was given

    // Every connection is sent the message once; those whose send failed are dropped at the end.
    method Broadcast(m: Message, order: seq<nat>, ok: nat -> bool)
      requires IsListing(order, connections) && connections <= sent.Keys
      modifies this
      ensures connections == set c | c in old(connections) && ok(c)
      ensures sent.Keys == old(sent).Keys
      ensures forall c :: c in sent ==>
        sent[c] == if c in old(connections) && ok(c) then old(sent)[c] + [m] else old(sent)[c]
    {
      hide IsListing;
      var dead: seq<nat> := [];
      for i := 0 to |order|
        invariant connections == old(connections) && sent.Keys == old(sent).Keys
        invariant forall c :: c in dead <==> c in order[..i] && !ok(c)
        invariant forall c :: c in sent ==>
          sent[c] == if c in order[..i] && ok(c) then old(sent)[c] + [m] else old(sent)[c]
      {
        var c := order[i];
        NextListed(order, connections, i);
        if ok(c) {
          sent := sent[c := sent[c] + [m]];
        } else {
          dead := dead + [c];
        }
      }
      AllListed(order, connections);
      connections := connections - set c | c in dead;
    }
  }

  // ---- The stream to the clients ----

  // The broadcast loop: waiting for a message, or sending one to a list of clients in turn.
  datatype Loop = Waiting | Sending(m: Message, rest: seq<nat>, dead: set<nat>)

  // `start` is the number of messages taken off the queue when the client was registered.
  datatype Client = Client(start: nat, received: seq<Message>)

  datatype State = State(
    published: seq<Message>, accepted: seq<bool>, lengths: seq<nat>,
    queue: seq<Message>, dequeued: seq<Message>,
    connections: set<nat>, clients: map<nat, Client>, loop: Loop)

  datatype Action =
    | Publish(m: Message)
    | Register(client: nat)
    | Unregister(client: nat)
    | Take(order: seq<nat>)     // dequeue; `order` lists the current connections
    | Send(ok: bool)            // the next send succeeds, or times out or raises
    | Sweep                     // the round is over: discard the dead

  function Step(s: State, a: Action): Option<State> {
    match a
    case Publish(m) =>
      Some(s.(published := s.published + [m],
              accepted := s.accepted + [|s.queue| < QUEUE_SIZE],
              lengths := s.lengths + [|s.queue|],
              queue := Offer(s.queue, m)))
    case Register(c) =>
      // Each accepted socket is a new object.
      if c in s.clients then None
      else Some(s.(connections := s.connections + {c}, clients := s.clients[c := Client(|s.dequeued|, [])]))
    case Unregister(c) => Some(s.(connections := s.connections - {c}))
    case Take(order) =>
      if !s.loop.Waiting? || s.queue == [] || !IsListing(order, s.connections) then None
      else Some(s.(queue := s.queue[1..], dequeued := s.dequeued + [s.queue[0]],
        loop := Sending(s.queue[0], order, {})))
    case Send(ok) =>
      if !s.loop.Sending? || s.loop.rest == [] then None
      else
        var c := s.loop.rest[0];
        if c !in s.clients then None
        else if ok then
          Some(s.(clients := s.clients[c := s.clients[c].(received := s.clients[c].received + [s.loop.m])],
                  loop := s.loop.(rest := s.loop.rest[1..])))
        else Some(s.(loop := s.loop.(rest := s.loop.rest[1..], dead := s.loop.dead + {c})))
    case Sweep =>
      if !s.loop.Sending? || s.loop.rest != [] then None
      else Some(s.(connections := s.connections - s.loop.dead, loop := Waiting))
  }

  function Run(actions: seq<Action>): Option<State> {
    if actions == [] then Some(State([], [], [], [], [], {}, map[], Waiting))
    else
      var before := Run(actions[..|actions| - 1]);
      if before.None? then None else Step(before.value, actions[|actions| - 1])
  }

  // The published messages that were not dropped, in order.
  function Kept(published: seq<Message>, accepted: seq<bool>): seq<Message>
    requires |published| == |accepted|
  {
    if published == [] then []
    else
      var n := |published| - 1;
      Kept(published[..n], accepted[..n]) + (if accepted[n] then [published[n]] else [])
  }

  // ---- What the queue keeps ----

  ghost predicate QueueExact(s: State) {
    && |s.published| == |s.accepted| == |s.lengths|
    && s.dequeued + s.queue == Kept(s.published, s.accepted)
    && (forall i :: 0 <= i < |s.accepted| ==> (s.accepted[i] <==> s.lengths[i] != QUEUE_SIZE))
    && |s.queue| <= QUEUE_SIZE
  }

  lemma StepKeepsQueue(s: State, a: Action)
    requires Step(s, a).Some? && QueueExact(s)
    ensures QueueExact(Step(s, a).value)
  {
    var s' := Step(s, a).value;
    if a.Publish? {
      var n := |s.published|;
      assert s'.published[..n] == s.published && s'.accepted[..n] == s.accepted;
      assert s'.dequeued + s'.queue == (s.dequeued + s.queue) + (if s'.accepted[n] then [a.m] else []);
    } else if a.Take? {
      assert s'.dequeued + s'.queue == s.dequeued + s.queue;
    }
  }

  // ---- What a client receives ----

  // Every client's messages are a block of the dequeued stream beginning at its registration.
  predicate IsBlock(dequeued: seq<Message>, c: Client) {
    && c.start + |c.received| <= |dequeued|
    && c.received == dequeued[c.start..c.start + |c.received|]
  }

  // Where a client stands: everything so far, or all but the message being sent.
  ghost predicate Standing(s: State, id: nat)
    requires id in s.clients
  {
    var c := s.clients[id];
    var n := c.start + |c.received|;
    match s.loop
    case Waiting => id in s.connections ==> n == |s.dequeued|
    case Sending(m, rest, dead) =>
      if id in rest then n + 1 == |s.dequeued| else id in s.connections && id !in dead ==> n == |s.dequeued|
  }

  ghost predicate StreamExact(s: State) {
    && (forall id :: id in s.connections ==> id in s.clients)
    && (s.loop.Sending? ==>
          && s.dequeued != [] && s.dequeued[|s.dequeued| - 1] == s.loop.m
          && (forall i :: 0 <= i < |s.loop.rest| ==> s.loop.rest[i] in s.clients && s.loop.rest[i] !in s.loop.dead)
          && (forall i, j :: 0 <= i < j < |s.loop.rest| ==> s.loop.rest[i] != s.loop.rest[j]))
    && (forall id :: id in s.clients ==> IsBlock(s.dequeued, s.clients[id]) && Standing(s, id))
  }

  lemma BlockSurvives(dequeued: seq<Message>, m: Message, c: Client)
    requires IsBlock(dequeued, c)
    ensures IsBlock(dequeued + [m], c)
  {
  }

  lemma BlockExtends(dequeued: seq<Message>, c: Client, m: Message)
    requires IsBlock(dequeued, c) && c.start + |c.received| + 1 == |dequeued| && dequeued[|dequeued| - 1] == m
    ensures IsBlock(dequeued, c.(received := c.received + [m]))
  {
  }

  lemma TakeKeepsStream(s: State, order: seq<nat>)
    requires Step(s, Take(order)).Some? && StreamExact(s)
    ensures StreamExact(Step(s, Take(order)).value)
  {
    hide IsBlock;
    var s' := Step(s, Take(order)).value;
    assert forall i :: 0 <= i < |order| ==> order[i] in s.connections by {
      forall i | 0 <= i < |order|
        ensures order[i] in s.connections
      {
        assert order[i] in order && order[i] in (set c | c in order);
      }
    }
    forall id | id in s'.clients
      ensures IsBlock(s'.dequeued, s'.clients[id]) && Standing(s', id)
    {
      BlockSurvives(s.dequeued, s.queue[0], s.clients[id]);
      assert Standing(s, id);
      assert id in s.connections ==> id in (set c | c in order);
    }
  }

  lemma SendKeepsStream(s: State, ok: bool)
    requires Step(s, Send(ok)).Some? && StreamExact(s)
    ensures StreamExact(Step(s, Send(ok)).value)
  {
    hide IsBlock;
    var s' := Step(s, Send(ok)).value;
    var c := s.loop.rest[0];
    assert s.loop.rest == [c] + s'.loop.rest;
    assert Standing(s, c) && c in s.loop.rest && c !in s'.loop.rest;
    BlockExtends(s.dequeued, s.clients[c], s.loop.m) by { assert Standing(s, c); }
    forall id | id in s'.clients
      ensures IsBlock(s'.dequeued, s'.clients[id]) && Standing(s', id)
    {
      assert Standing(s, id);
    }
  }

  lemma SweepKeepsStream(s: State)
    requires Step(s, Sweep).Some? && StreamExact(s)
    ensures StreamExact(Step(s, Sweep).value)
  {
    hide IsBlock;
    var s' := Step(s, Sweep).value;
    forall id | id in s'.clients
      ensures Standing(s', id)
    {
      assert Standing(s, id);
    }
  }

  lemma OutsideKeepsStream(s: State, a: Action)
    requires Step(s, a).Some? && StreamExact(s) && (a.Publish? || a.Register? || a.Unregister?)
    ensures StreamExact(Step(s, a).value)
  {
    hide Offer;
    var s' := Step(s, a).value;
    forall id | id in s'.clients
      ensures IsBlock(s'.dequeued, s'.clients[id]) && Standing(s', id)
    {
      assert id in s.clients ==> Standing(s, id);
    }
  }

  lemma StepKeepsStream(s: State, a: Action)
    requires Step(s, a).Some? && StreamExact(s)
    ensures StreamExact(Step(s, a).value)
  {
    hide Step, StreamExact;
    match a
    case Take(order) => TakeKeepsStream(s, order);
    case Send(ok) => SendKeepsStream(s, ok);
    case Sweep => SweepKeepsStream(s);
    case _ => OutsideKeepsStream(s, a);
  }

  lemma {:induction false} RunIsExact(actions: seq<Action>)
    requires Run(actions).Some?
    ensures QueueExact(Run(actions).value) && StreamExact(Run(actions).value)
  {
    hide QueueExact, StreamExact, Step;
    if actions == [] {
      StartIsExact();
    } else {
      var before := actions[..|actions| - 1];
      RunIsExact(before);
      StepKeepsQueue(Run(before).value, actions[|actions| - 1]);
      StepKeepsStream(Run(before).value, actions[|actions| - 1]);
    }
  }

  lemma StartIsExact()
    ensures var s := State([], [], [], [], [], {}, map[], Waiting); QueueExact(s) && StreamExact(s)
  {
  }

  // The messages taken off the queue, followed by those still in it, are the published ones minus
  // exactly those that met a full queue.
  lemma OnlyFullQueuesDrop(actions: seq<Action>)
    requires Run(actions).Some?
    ensures var s := Run(actions).value;
      && |s.accepted| == |s.published| == |s.lengths|
      && s.dequeued + s.queue == Kept(s.published, s.accepted)
      && (forall i :: 0 <= i < |s.published| ==> (!s.accepted[i] <==> s.lengths[i] == 256))
  {
    hide Run;
    RunIsExact(actions);
  }

  // Each client ever registered has received an in-order contiguous block of the dequeued messages
  // that starts at its registration; while it stays registered, between rounds, nothing is missing.
  lemma ClientsReceiveABlock(actions: seq<Action>, id: nat)
    requires Run(actions).Some? && id in Run(actions).value.clients
    ensures var s := Run(actions).value;
      var c := s.clients[id];
      && c.start + |c.received| <= |s.dequeued|
      && c.received == s.dequeued[c.start..c.start + |c.received|]
      && (id in s.connections && s.loop.Waiting? ==> c.received == s.dequeued[c.start..])
  {
    hide Run;
    RunIsExact(actions);
    var s := Run(actions).value;
    assert Standing(s, id);
  }
}
