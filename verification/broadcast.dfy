/** One-shot channels: a value that is set is sent once to every waiting subscriber, outside the lock,
    and at once to later ones (task/connection.go, cmd/eru-systemd-shim/shim/shim.go). */
module BroadcastSpec {
  import opened Common
  import opened Pools

  type Chan = nat

  /** What a subscriber can be sent. Nothing is what Disabled(nil) sends: neither a service nor an exit. */
  datatype Value = Nothing | Service(id: nat) | Exit(status: nat) | Signal(n: nat)

  datatype Box = Box(values: seq<Value>, closes: nat)

  /** A setter that has left the lock and works through the subscribers it took with it. */
  datatype Flight = Flight(value: Value, subs: seq<Chan>)

  datatype State = State(
    last: Value,
    pending: seq<Chan>,
    flights: seq<Flight>,
    boxes: map<Chan, Box>,
    next: Chan)

  /** Set is setService and Disabled; SetOnce is SignalPublisher.Publish; Deliver is one turn of a
      setter's loop. */
  datatype Action = Subscribe | Set(v: Value) | SetOnce(n: nat) | Reset | Deliver(i: nat)

  const NEW := State(Nothing, [], [], map[], 0)

  function AfterSet(s: State, v: Value): State {
    s.(last := v, pending := [], flights := s.flights + [Flight(v, s.pending)])
  }

  /** A send on channel c and its close. */
  function PostBox(boxes: map<Chan, Box>, c: Chan, v: Value): map<Chan, Box> {
    var b := if c in boxes then boxes[c] else Box([], 0);
    boxes[c := Box(b.values + [v], b.closes + 1)]
  }

  function Post(s: State, c: Chan, v: Value): State {
    s.(boxes := PostBox(s.boxes, c, v))
  }

  function Step(s: State, a: Action): State {
    match a
    case Subscribe =>
      var t := s.(next := s.next + 1, boxes := s.boxes[s.next := Box([], 0)]);
      if s.last != Nothing then Post(t, s.next, s.last) else t.(pending := s.pending + [s.next])
    case Set(v) => AfterSet(s, v)
    case SetOnce(n) => if s.last != Nothing then s else AfterSet(s, Signal(n))
    case Reset => s.(last := Nothing)
    case Deliver(i) =>
      if i >= |s.flights| then s
      else
        var f := s.flights[i];
        if f.subs == [] then s.(flights := Remove(s.flights, i))
        else Post(s.(flights := s.flights[i := f.(subs := f.subs[1..])]), f.subs[0], f.value)
  }

  function Run(s: State, acts: seq<Action>): State
    decreases |acts|
  {
    if acts == [] then s else Run(Step(s, acts[0]), acts[1..])
  }

  function Is(c: Chan): Chan -> nat {
    (x: Chan) => if x == c then 1 else 0
  }

  function Carries(c: Chan): Flight -> nat {
    (f: Flight) => Sum(f.subs, Is(c))
  }

  function Received(s: State, c: Chan): nat {
    if c in s.boxes then |s.boxes[c].values| else 0
  }

  function InFlight(s: State, c: Chan): nat {
    Sum(s.flights, Carries(c))
  }

  /** A subscriber waits, is about to be served, or was sent one value and closed once. */
  predicate Served(s: State, c: Chan) {
    && Sum(s.pending, Is(c)) + InFlight(s, c) + Received(s, c) == (if c < s.next then 1 else 0)
    && (c in s.boxes ==> s.boxes[c].closes == |s.boxes[c].values|)
  }

  ghost predicate Inv(s: State) {
    && (forall c :: Served(s, c))
    && (s.last != Nothing ==> s.pending == [])
  }

  lemma DeliverServes(s: State, i: nat, c: Chan)
    requires Served(s, c) && i < |s.flights|
    ensures Served(Step(s, Deliver(i)), c)
  {
    var f := s.flights[i];
    if f.subs == [] {
      SumRemove(s.flights, i, Carries(c));
    } else {
      SumReplace(s.flights, i, f.(subs := f.subs[1..]), Carries(c));
    }
  }

  lemma SetServes(s: State, v: Value, c: Chan)
    requires Served(s, c)
    ensures Served(AfterSet(s, v), c)
  {
    SumAppend(s.flights, Flight(v, s.pending), Carries(c));
  }

  lemma SubscribeServes(s: State, c: Chan)
    requires Served(s, c)
    ensures Served(Step(s, Subscribe), c)
  {
    SumAppend(s.pending, s.next, Is(c));
  }

  lemma StepKeepsInv(s: State, a: Action)
    requires Inv(s)
    ensures Inv(Step(s, a))
  {
    forall c ensures Served(Step(s, a), c) {
      assert Served(s, c);
      match a
      case Subscribe => SubscribeServes(s, c);
      case Set(v) => SetServes(s, v, c);
      case SetOnce(n) => SetServes(s, Signal(n), c);
      case Reset =>
      case Deliver(i) =>
        if i < |s.flights| {
          DeliverServes(s, i, c);
        }
    }
  }

  lemma {:induction false} RunKeepsInv(s: State, acts: seq<Action>)
    requires Inv(s)
    ensures Inv(Run(s, acts))
    decreases |acts|
  {
    if acts != [] {
      StepKeepsInv(s, acts[0]);
      RunKeepsInv(Step(s, acts[0]), acts[1..]);
    }
  }

  /** Over every run, resets included: each channel waits in the list, is about to be served by one
      setter, or holds exactly one value and was closed exactly once; and nobody waits while a value is set. */
  lemma EachSubscriberIsServedOnce(acts: seq<Action>, c: Chan)
    requires c < Run(NEW, acts).next
    ensures var s := Run(NEW, acts);
            && Sum(s.pending, Is(c)) + InFlight(s, c) + Received(s, c) == 1
            && (c in s.boxes ==> s.boxes[c].closes == |s.boxes[c].values|)
            && (s.last != Nothing ==> s.pending == [])
  {
    NewIsInv();
    RunKeepsInv(NEW, acts);
    assert Served(Run(NEW, acts), c);
  }

  lemma NewIsInv()
    ensures Inv(NEW)
  {
  }

  // ---- What a subscriber receives ----

  /** The first value that is set in acts, if any. */
  function FirstSet(acts: seq<Action>): Option<Value> {
    if acts == [] then None
    else if acts[0].Set? then Some(acts[0].v)
    else if acts[0].SetOnce? then Some(Signal(acts[0].n))
    else FirstSet(acts[1..])
  }

  /** v is all that channel c holds or will be sent. */
  ghost predicate Only(s: State, c: Chan, v: Value) {
    && c !in s.pending
    && (c in s.boxes ==> forall x :: x in s.boxes[c].values ==> x == v)
    && (forall f :: f in s.flights && c in f.subs ==> f.value == v)
  }

  lemma {:induction false} SumCounts(cs: seq<Chan>, c: Chan)
    ensures c in cs <==> Sum(cs, Is(c)) > 0
  {
    if cs != [] {
      SumCounts(cs[1..], c);
    }
  }

  lemma {:induction false} NotCarried(fs: seq<Flight>, c: Chan, f: Flight)
    requires Sum(fs, Carries(c)) == 0 && f in fs
    ensures c !in f.subs
  {
    if f == fs[0] {
      SumCounts(f.subs, c);
    } else {
      NotCarried(fs[1..], c, f);
    }
  }

  lemma SetPromises(s: State, v: Value, c: Chan)
    requires Served(s, c) && c in s.pending && c < s.next
    ensures Only(AfterSet(s, v), c, v)
  {
    SumCounts(s.pending, c);
    assert c in s.boxes ==> s.boxes[c].values == [];
    forall f | f in AfterSet(s, v).flights && c in f.subs ensures f.value == v {
      if f in s.flights {
        NotCarried(s.flights, c, f);
      }
    }
  }

  lemma DeliverKeepsPromise(s: State, i: nat, c: Chan, v: Value)
    requires Only(s, c, v) && i < |s.flights|
    ensures Only(Step(s, Deliver(i)), c, v)
  {
    var f, t := s.flights[i], Step(s, Deliver(i));
    assert f in s.flights;
    if f.subs == [] {
      assert forall g :: g in t.flights ==> g in s.flights;
    } else {
      var rest := f.(subs := f.subs[1..]);
      assert forall g :: g in t.flights ==> g in s.flights || g == rest;
      assert forall x :: x in rest.subs ==> x in f.subs;
      assert c == f.subs[0] ==> f.value == v;
    }
  }

  lemma StepKeepsPromise(s: State, a: Action, c: Chan, v: Value)
    requires Only(s, c, v) && c < s.next
    ensures Only(Step(s, a), c, v)
  {
    match a
    case Deliver(i) =>
      if i < |s.flights| {
        DeliverKeepsPromise(s, i, c, v);
      }
    case Set(w) => assert forall f :: f in AfterSet(s, w).flights ==> f in s.flights || f == Flight(w, s.pending);
    case SetOnce(n) =>
      assert forall f :: f in AfterSet(s, Signal(n)).flights ==> f in s.flights || f == Flight(Signal(n), s.pending);
    case _ =>
  }

  lemma {:induction false} RunKeepsPromise(s: State, acts: seq<Action>, c: Chan, v: Value)
    requires Only(s, c, v) && c < s.next
    ensures Only(Run(s, acts), c, v)
    decreases |acts|
  {
    if acts != [] {
      StepKeepsPromise(s, acts[0], c, v);
      RunKeepsPromise(Step(s, acts[0]), acts[1..], c, v);
    }
  }

  lemma StepKeepsWaiting(s: State, a: Action, c: Chan)
    requires c in s.pending && !a.Set? && !a.SetOnce?
    ensures c in Step(s, a).pending
  {
  }

  lemma {:induction false} WaiterIsPromised(s: State, acts: seq<Action>, c: Chan)
    requires Inv(s) && c in s.pending && c < s.next
    ensures var t, v := Run(s, acts), FirstSet(acts);
            if v.None? then c in t.pending else Only(t, c, v.value)
    decreases |acts|
  {
    if acts != [] {
      assert Served(s, c) && s.last == Nothing;
      StepKeepsInv(s, acts[0]);
      if acts[0].Set? || acts[0].SetOnce? {
        var v := FirstSet(acts).value;
        SetPromises(s, v, c);
        RunKeepsPromise(AfterSet(s, v), acts[1..], c, v);
      } else {
        StepKeepsWaiting(s, acts[0], c);
        WaiterIsPromised(Step(s, acts[0]), acts[1..], c);
      }
    }
  }

  /** Over every run a subscriber receives the value that is set when it subscribes, or else the first one
      that is set afterwards, and no other; until one is, it waits. */
  lemma ReceivesWhatIsSet(before: seq<Action>, after: seq<Action>)
    ensures var s := Run(NEW, before);
            var c, v := s.next, if s.last != Nothing then Some(s.last) else FirstSet(after);
            var t := Run(Step(s, Subscribe), after);
            if v.None? then c in t.pending else Only(t, c, v.value)
  {
    NewIsInv();
    RunKeepsInv(NEW, before);
    var s := Run(NEW, before);
    var c, u := s.next, Step(s, Subscribe);
    StepKeepsInv(s, Subscribe);
    assert Served(s, c);
    if s.last == Nothing {
      assert u.pending == s.pending + [c];
      WaiterIsPromised(u, after, c);
    } else {
      assert u.boxes[c].values == [s.last];
      forall f | f in s.flights ensures c !in f.subs {
        NotCarried(s.flights, c, f);
      }
      RunKeepsPromise(u, after, c, s.last);
    }
  }

  // ---- SignalPublisher: the first signal is the only one ----

  predicate OnlyFirst(s: State) {
    && (forall f :: f in s.flights && f.subs != [] ==> s.last != Nothing && f.value == s.last)
    && (forall c :: c in s.boxes ==> forall v :: v in s.boxes[c].values ==> s.last != Nothing && v == s.last)
  }

  predicate Signalling(acts: seq<Action>) {
    forall a :: a in acts ==> a.Subscribe? || a.SetOnce? || a.Deliver?
  }

  lemma StepKeepsFirst(s: State, a: Action)
    requires OnlyFirst(s) && (a.Subscribe? || a.SetOnce? || a.Deliver?)
    ensures OnlyFirst(Step(s, a)) && (s.last != Nothing ==> Step(s, a).last == s.last)
  {
    if a.Deliver? && a.i < |s.flights| {
      assert s.flights[a.i] in s.flights;
      assert forall f :: f in Remove(s.flights, a.i) ==> f in s.flights;
    }
  }

  lemma {:induction false} RunKeepsFirst(s: State, acts: seq<Action>)
    requires OnlyFirst(s) && Signalling(acts)
    ensures OnlyFirst(Run(s, acts)) && (s.last != Nothing ==> Run(s, acts).last == s.last)
    decreases |acts|
  {
    if acts != [] {
      assert acts[0] in acts && forall a :: a in acts[1..] ==> a in acts;
      StepKeepsFirst(s, acts[0]);
      RunKeepsFirst(Step(s, acts[0]), acts[1..]);
    }
  }

  /** All subscribers of a signal publisher, early or late, see the same signal: once there is a first
      one, it is what every one of them has received or will receive. */
  lemma AllSeeTheFirstSignal(before: seq<Action>, after: seq<Action>, c: Chan)
    requires Signalling(before) && Signalling(after) && Run(NEW, before).last != Nothing
    ensures var t := Run(Run(NEW, before), after);
            && t.last == Run(NEW, before).last
            && (forall v :: c in t.boxes && v in t.boxes[c].values ==> v == t.last)
            && (forall f :: f in t.flights && f.subs != [] ==> f.value == t.last)
  {
    RunKeepsFirst(NEW, before);
    RunKeepsFirst(Run(NEW, before), after);
  }

  // ---- ConnMng: when a subscriber is sent nothing ----

  /** Some subscriber has received nothing, or is about to. */
  ghost predicate NothingSent(s: State) {
    || (exists f :: f in s.flights && f.subs != [] && f.value.Nothing?)
    || (exists c :: c in s.boxes && Nothing in s.boxes[c].values)
  }

  /** In this run Disabled was called without an exit while somebody waited. */
  predicate NilExitWhileWaiting(s: State, acts: seq<Action>)
    decreases |acts|
  {
    acts != [] && ((acts[0] == Set(Nothing) && s.pending != []) || NilExitWhileWaiting(Step(s, acts[0]), acts[1..]))
  }

  lemma SubscribeSendsNothing(s: State)
    requires Inv(s)
    ensures NothingSent(Step(s, Subscribe)) <==> NothingSent(s)
  {
    var t := Step(s, Subscribe);
    assert Served(s, s.next);
    assert t.flights == s.flights;
    assert t.boxes[s.next].values == if s.last != Nothing then [s.last] else [];
    forall c ensures c in t.boxes && Nothing in t.boxes[c].values <==> c in s.boxes && Nothing in s.boxes[c].values {
      if c != s.next {
        assert c in t.boxes <==> c in s.boxes;
      }
    }
  }

  lemma NothingStays(s: State, a: Action)
    requires Inv(s)
    ensures NothingSent(Step(s, a)) <==> NothingSent(s) || (a == Set(Nothing) && s.pending != [])
  {
    match a
    case Subscribe => SubscribeSendsNothing(s);
    case Set(v) => SetSendsNothing(s, v);
    case SetOnce(n) => SetSendsNothing(s, Signal(n));
    case Reset => assert Step(s, a).boxes == s.boxes && Step(s, a).flights == s.flights;
    case Deliver(i) =>
      if i < |s.flights| {
        DeliverMovesNothing(s, i);
      }
  }

  lemma SetSendsNothing(s: State, v: Value)
    ensures NothingSent(AfterSet(s, v)) <==> NothingSent(s) || (v.Nothing? && s.pending != [])
  {
    var t := AfterSet(s, v);
    assert Flight(v, s.pending) in t.flights;
    assert forall f :: f in s.flights ==> f in t.flights;
    assert forall f :: f in t.flights ==> f in s.flights || f == Flight(v, s.pending);
  }

  lemma DeliverMovesNothing(s: State, i: nat)
    requires i < |s.flights|
    ensures NothingSent(Step(s, Deliver(i))) <==> NothingSent(s)
  {
    var t, f := Step(s, Deliver(i)), s.flights[i];
    assert f in s.flights;
    if f.subs == [] {
      forall g | g in s.flights && g.subs != [] ensures g in t.flights {
        var j :| 0 <= j < |s.flights| && s.flights[j] == g;
        assert t.flights[if j < i then j else j - 1] == g;
      }
      assert forall g :: g in t.flights ==> g in s.flights;
    } else {
      var rest := f.(subs := f.subs[1..]);
      forall g | g in s.flights && g != f ensures g in t.flights {
        var j :| 0 <= j < |s.flights| && s.flights[j] == g;
        assert t.flights[j] == g;
      }
      assert forall g :: g in t.flights ==> g in s.flights || g == rest;
      var had := if f.subs[0] in s.boxes then s.boxes[f.subs[0]].values else [];
      assert t.boxes[f.subs[0]].values == had + [f.value];
      assert forall c :: c in s.boxes && c != f.subs[0] ==> c in t.boxes && t.boxes[c] == s.boxes[c];
    }
  }

  /** A subscriber of the connection manager is sent neither a service nor an exit exactly if Disabled
      was called without an exit while somebody waited. */
  lemma {:induction false} NothingIsSentExactly(s: State, acts: seq<Action>)
    requires Inv(s)
    ensures NothingSent(Run(s, acts)) <==> NothingSent(s) || NilExitWhileWaiting(s, acts)
    decreases |acts|
  {
    if acts != [] {
      NothingStays(s, acts[0]);
      StepKeepsInv(s, acts[0]);
      NothingIsSentExactly(Step(s, acts[0]), acts[1..]);
    }
  }

  /** It is: a subscriber waits, and the exit that Disabled passes on is missing. */
  lemma NothingReachesSubscriber()
    ensures NothingSent(Run(NEW, [Subscribe, Set(Nothing)]))
  {
    var s := Step(NEW, Subscribe);
    assert [Subscribe, Set(Nothing)][1..] == [Set(Nothing)] && [Set(Nothing)][1..] == [];
    assert Run(s, [Set(Nothing)]) == AfterSet(s, Nothing);
    assert s.pending == [0] && s.flights == [];
    var t := AfterSet(s, Nothing);
    assert t.flights == [Flight(Nothing, [0])] && t.flights[0] in t.flights;
  }
}

/** The two objects that use it, each setter run to its end. */
module Subscriptions {
  import opened Common
  import opened BroadcastSpec

  /** The turns a setter needs for n subscribers, and the one that ends its loop. */
  ghost function Deliveries(n: nat): seq<Action> {
    if n == 0 then [Deliver(0)] else [Deliver(0)] + Deliveries(n - 1)
  }

  /** What a setter's whole loop leaves. */
  ghost function Posted(s: State, subs: seq<Chan>, v: Value): State
    decreases |subs|
  {
    if subs == [] then s else Posted(Post(s, subs[0], v), subs[1..], v)
  }

  lemma {:induction false} DeliverAll(s: State, subs: seq<Chan>, v: Value)
    requires s.flights == [Flight(v, subs)]
    ensures Run(s, Deliveries(|subs|)) == Posted(s.(flights := []), subs, v)
    decreases |subs|
  {
    var acts := Deliveries(|subs|);
    var t := Step(s, acts[0]);
    if subs == [] {
      assert acts[1..] == [];
      assert t == s.(flights := []);
    } else {
      assert acts[1..] == Deliveries(|subs| - 1);
      assert t == Post(s, subs[0], v).(flights := [Flight(v, subs[1..])]);
      DeliverAll(t, subs[1..], v);
      assert t.(flights := []) == Post(s.(flights := []), subs[0], v);
    }
  }

  /** A setter that nobody interrupts: its critical section, then its loop. */
  lemma SetThenDeliver(s: State, a: Action, v: Value)
    requires s.flights == [] && (a == Set(v) || (a.SetOnce? && v == Signal(a.n) && s.last == Nothing))
    ensures Run(s, [a] + Deliveries(|s.pending|)) == Posted(s.(last := v, pending := []), s.pending, v)
  {
    var acts := [a] + Deliveries(|s.pending|);
    assert acts[1..] == Deliveries(|s.pending|);
    DeliverAll(AfterSet(s, v), s.pending, v);
    assert AfterSet(s, v).(flights := []) == s.(last := v, pending := []);
  }

  predicate GotLast(boxes: map<Chan, Box>, c: Chan, v: Value) {
    c in boxes && boxes[c].values != [] && boxes[c].values[|boxes[c].values| - 1] == v
  }

  /** Of the channels in subs each got v last, and no other channel got anything. */
  lemma {:induction false} PostedReaches(s: State, subs: seq<Chan>, v: Value, c: Chan)
    ensures var t := Posted(s, subs, v);
            && (c in subs ==> GotLast(t.boxes, c, v))
            && (c !in subs ==> (c in t.boxes <==> c in s.boxes) && (c in s.boxes ==> t.boxes[c] == s.boxes[c]))
            && t == s.(boxes := t.boxes)
    decreases |subs|
  {
    if subs != [] {
      PostedReaches(Post(s, subs[0], v), subs[1..], v, c);
    }
  }

  class Channels {
    var boxes: map<Chan, Box>
    var next: Chan

    constructor ()
      ensures boxes == map[] && next == 0
    {
      boxes, next := map[], 0;
    }

    method Make() returns (c: Chan)
      modifies this
      ensures c == old(next) && next == c + 1 && boxes == old(boxes)[c := Box([], 0)]
    {
      c := next;
      next := next + 1;
      boxes := boxes[c := Box([], 0)];
    }

    /** A send on a channel and its close. */
    method SendAndClose(c: Chan, v: Value)
      modifies this`boxes
      ensures boxes == PostBox(old(boxes), c, v)
      ensures c in boxes && boxes.Keys == old(boxes).Keys + {c}
      ensures c in old(boxes) ==> boxes[c] == Box(old(boxes[c].values) + [v], old(boxes[c].closes) + 1)
      ensures forall d :: d in old(boxes) && d != c ==> boxes[d] == old(boxes)[d]
    {
      var b := if c in boxes then boxes[c] else Box([], 0);
      boxes := boxes[c := Box(b.values + [v], b.closes + 1)];
    }
  }

  class ConnMng {
    const channels: Channels
    var lastSubscribe: Value
    var subscribers: seq<Chan>
    var disabled: bool
    var connecting: bool   // cancelConn holds a function to call

    function View(): State
      reads this, channels
    {
      State(lastSubscribe, subscribers, [], channels.boxes, channels.next)
    }

    constructor ()
      ensures View() == NEW && !disabled && !connecting && fresh(channels)
    {
      channels := new Channels();
      lastSubscribe, subscribers, disabled, connecting := Nothing, [], false, false;
    }

    method Subscribe() returns (c: Chan)
      modifies this`subscribers, channels
      ensures View() == Step(old(View()), BroadcastSpec.Subscribe) && c == old(channels.next)
      ensures c in channels.boxes
      ensures lastSubscribe != Nothing ==>
                channels.boxes[c] == Box([lastSubscribe], 1) && subscribers == old(subscribers)
      ensures lastSubscribe == Nothing ==> channels.boxes[c] == Box([], 0) && subscribers == old(subscribers) + [c]
    {
      c := channels.Make();
      if lastSubscribe != Nothing {
        channels.SendAndClose(c, lastSubscribe);
        return;
      }
      subscribers := subscribers + [c];
    }

    method SetService(id: nat)
      modifies this, channels
      ensures View() == Run(old(View()), [Set(Service(id))] + Deliveries(|old(subscribers)|))
      ensures lastSubscribe == Service(id) && subscribers == []
      ensures forall c :: c in old(subscribers) ==> GotLast(channels.boxes, c, Service(id))
      ensures disabled == old(disabled) && connecting == old(connecting)
    {
      SetThenDeliver(View(), Set(Service(id)), Service(id));
      var taken := subscribers;
      lastSubscribe, subscribers := Service(id), [];
      Notify(taken, Service(id));
    }

    method Disabled(exit: Option<nat>)
      modifies this, channels
      ensures var v := if exit.Some? then Exit(exit.value) else Nothing;
              View() == Run(old(View()), [Set(v)] + Deliveries(|old(subscribers)|))
      ensures disabled && !connecting && subscribers == []
      ensures var v := if exit.Some? then Exit(exit.value) else Nothing;
              lastSubscribe == v && forall c :: c in old(subscribers) ==> GotLast(channels.boxes, c, v)
    {
      var v := if exit.Some? then Exit(exit.value) else Nothing;
      SetThenDeliver(View(), Set(v), v);
      var taken := subscribers;
      connecting := false;
      disabled := true;
      lastSubscribe, subscribers := v, [];
      Notify(taken, v);
    }

    /** The loop after the lock is given back. */
    method Notify(taken: seq<Chan>, v: Value)
      modifies channels`boxes
      ensures View() == Posted(old(View()), taken, v)
      ensures forall c :: c in taken ==> GotLast(channels.boxes, c, v)
    {
      forall c | c in taken ensures GotLast(Posted(View(), taken, v).boxes, c, v) {
        PostedReaches(View(), taken, v, c);
      }
      for i := 0 to |taken|
        invariant lastSubscribe == old(lastSubscribe) && subscribers == old(subscribers)
        invariant channels.next == old(channels.next)
        invariant Posted(View(), taken[i..], v) == Posted(old(View()), taken, v)
      {
        assert taken[i..][0] == taken[i] && taken[i..][1..] == taken[i + 1..];
        channels.SendAndClose(taken[i], v);
      }
    }

    method Reset()
      modifies this`lastSubscribe
      ensures View() == Step(old(View()), BroadcastSpec.Reset) && lastSubscribe == Nothing
    {
      lastSubscribe := Nothing;
    }
  }

  class SignalPublisher {
    const channels: Channels
    var signal: Option<nat>
    var subscribers: seq<Chan>

    function View(): State
      reads this, channels
    {
      State(if signal.Some? then Signal(signal.value) else Nothing, subscribers, [], channels.boxes, channels.next)
    }

    constructor ()
      ensures View() == NEW && fresh(channels)
    {
      channels := new Channels();
      signal, subscribers := None, [];
    }

    /** Only the first signal counts; a later one changes nothing at all. */
    method Publish(n: nat)
      modifies this, channels`boxes
      ensures old(signal).Some? ==> View() == old(View())
      ensures old(signal).None? ==> View() == Run(old(View()), [SetOnce(n)] + Deliveries(|old(subscribers)|))
      ensures old(signal).None? ==>
                && signal == Some(n) && subscribers == []
                && forall c :: c in old(subscribers) ==> GotLast(channels.boxes, c, Signal(n))
    {
      if signal.Some? {
        return;
      }
      SetThenDeliver(View(), SetOnce(n), Signal(n));
      var taken := subscribers;
      signal, subscribers := Some(n), [];
      ghost var before := View();
      forall c | c in taken ensures GotLast(Posted(before, taken, Signal(n)).boxes, c, Signal(n)) {
        PostedReaches(before, taken, Signal(n), c);
      }
      for i := 0 to |taken|
        invariant signal == Some(n) && subscribers == [] && channels.next == old(channels.next)
        invariant Posted(View(), taken[i..], Signal(n)) == Posted(before, taken, Signal(n))
      {
        assert taken[i..][0] == taken[i] && taken[i..][1..] == taken[i + 1..];
        channels.SendAndClose(taken[i], Signal(n));
      }
    }

    method Subscribe() returns (c: Chan)
      modifies this`subscribers, channels
      ensures View() == Step(old(View()), BroadcastSpec.Subscribe) && c == old(channels.next)
      ensures c in channels.boxes
      ensures signal.Some? ==> channels.boxes[c] == Box([Signal(signal.value)], 1) && subscribers == old(subscribers)
      ensures signal.None? ==> channels.boxes[c] == Box([], 0) && subscribers == old(subscribers) + [c]
    {
      c := channels.Make();
      if signal.Some? {
        channels.SendAndClose(c, Signal(signal.value));
        return;
      }
      subscribers := subscribers + [c];
    }
  }
}

/** The reconnect loop of the connection manager. */
module ConnectLoop {
  const MAX_RETRY: nat := 10

  /** What one turn finds: whether the manager is disabled, whether reading the shim status fails,
      whether it reads disabled and not running, and whether the connection is made. */
  datatype Turn = Turn(disabled: bool, statusFailed: bool, stopped: bool, connected: bool)

  datatype End = Disabled | BundleDeleted | Stopped | Connected | StillTrying

  function Failures(turns: seq<Turn>): nat {
    if turns == [] then 0
    else Failures(turns[..|turns| - 1]) + if turns[|turns| - 1].statusFailed then 1 else 0
  }

  predicate Ends(t: Turn) {
    t.disabled || (!t.statusFailed && t.stopped) || t.connected
  }

  /** Failed status reads are counted over the whole loop, not in a row: the bundle is deleted in the
      turn of the tenth, and in no other. The other ends are those of the turn that was used last. */
  method Connect(turns: seq<Turn>) returns (end: End, used: nat)
    ensures used <= |turns| && (used == 0 ==> end.StillTrying?)
    ensures forall i :: 0 <= i < used - 1 ==> !Ends(turns[i])
    ensures used > 0 ==>
      var t, failures := turns[used - 1], Failures(turns[..used]);
      && (end.Disabled? <==> t.disabled)
      && (end.BundleDeleted? <==> !t.disabled && t.statusFailed && failures == 10)
      && (end.Stopped? <==> !t.disabled && !t.statusFailed && t.stopped)
      && (end.Connected? ==> t.connected)
      && (!t.disabled && !end.BundleDeleted? ==> failures < 10)
      && Failures(turns[..used - 1]) < 10
    ensures end.StillTrying? ==> used == |turns| && forall i :: 0 <= i < |turns| ==> !Ends(turns[i])
  {
    var retryCount := 0;
    used := 0;
    while used < |turns|
      invariant used <= |turns| && retryCount == Failures(turns[..used]) < MAX_RETRY
      invariant used > 0 ==> Failures(turns[..used - 1]) < MAX_RETRY
      invariant forall i :: 0 <= i < used ==> !Ends(turns[i])
    {
      var t := turns[used];
      assert turns[..used + 1][..used] == turns[..used];
      used := used + 1;
      if t.disabled {
        return Disabled, used;
      }
      if t.statusFailed {
        retryCount := retryCount + 1;
      }
      if retryCount >= MAX_RETRY {
        return BundleDeleted, used;
      }
      if !t.statusFailed && t.stopped {
        return Stopped, used;
      }
      if t.connected {
        return Connected, used;
      }
    }
    return StillTrying, used;
  }
}
