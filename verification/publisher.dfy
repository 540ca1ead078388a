/** The shim's retrying event publisher (shim/publisher.go). A try is one forwardRequest; the
    environment says whether it succeeded. */
module PublisherSpec {
  import opened Common
  import opened Pools

  const QUEUE_SIZE: nat := 2048
  const MAX_REQUEUE: nat := 5

  type Id = nat

  datatype Item = Item(id: Id, count: nat)

  /** sleepers are the goroutines that put an item back after a delay; requeue is the channel. */
  datatype State = State(
    next: Id,
    sleepers: seq<Item>,
    requeue: seq<Item>,
    delivered: seq<Id>,
    dropped: seq<Id>,
    tries: map<Id, nat>)

  datatype Action = Publish(ok: bool) | Wake(i: nat) | Process(ok: bool)

  const NEW := State(0, [], [], [], [], map[])

  function Try(s: State, it: Item, ok: bool): State {
    var t := s.(tries := s.tries[it.id := it.count + 1]);
    if ok then t.(delivered := s.delivered + [it.id])
    else t.(sleepers := s.sleepers + [Item(it.id, it.count + 1)])
  }

  function Step(s: State, a: Action): State {
    match a
    case Publish(ok) => Try(s.(next := s.next + 1), Item(s.next, 0), ok)
    case Wake(i) =>
      if i < |s.sleepers| && |s.requeue| < QUEUE_SIZE
      then s.(sleepers := Remove(s.sleepers, i), requeue := s.requeue + [s.sleepers[i]])
      else s
    case Process(ok) =>
      if s.requeue == [] then s
      else
        var it, t := s.requeue[0], s.(requeue := s.requeue[1..]);
        if it.count > MAX_REQUEUE then t.(dropped := s.dropped + [it.id]) else Try(t, it, ok)
  }

  function Run(s: State, acts: seq<Action>): State
    decreases |acts|
  {
    if acts == [] then s else Run(Step(s, acts[0]), acts[1..])
  }

  function IsItem(id: Id): Item -> nat {
    (it: Item) => if it.id == id then 1 else 0
  }

  function IsId(id: Id): Id -> nat {
    (x: Id) => if x == id then 1 else 0
  }

  function Pending(s: State, id: Id): nat {
    Sum(s.sleepers, IsItem(id)) + Sum(s.requeue, IsItem(id))
  }

  function Delivered(s: State, id: Id): nat {
    Sum(s.delivered, IsId(id))
  }

  function Dropped(s: State, id: Id): nat {
    Sum(s.dropped, IsId(id))
  }

  /** An event is delivered, dropped or pending: one of them, and once. */
  predicate Accounted(s: State, id: Id) {
    Pending(s, id) + Delivered(s, id) + Dropped(s, id) == if id < s.next then 1 else 0
  }

  /** A pending item counts the tries behind it, of which there are at most six. */
  predicate Counted(s: State, it: Item) {
    it.id < s.next && it.id in s.tries && 1 <= it.count <= MAX_REQUEUE + 1 && s.tries[it.id] == it.count
  }

  ghost predicate Inv(s: State) {
    (forall id :: Accounted(s, id)) && Counts(s)
  }

  ghost predicate Counts(s: State) {
    && (forall it :: it in s.sleepers || it in s.requeue ==> Counted(s, it))
    && (forall id :: id in s.delivered ==> id < s.next && id in s.tries && 1 <= s.tries[id] <= MAX_REQUEUE + 1)
    && (forall id :: id in s.dropped ==> id < s.next && id in s.tries && s.tries[id] == MAX_REQUEUE + 1)
  }

  lemma {:induction false} AtLeastOne<T>(s: seq<T>, x: T, w: T -> nat)
    requires x in s
    ensures w(x) <= Sum(s, w)
  {
    if x in s[1..] {
      AtLeastOne(s[1..], x, w);
    }
  }

  lemma TryMoves(s: State, it: Item, ok: bool, id: Id)
    ensures var t := Try(s, it, ok);
            Pending(t, id) + Delivered(t, id) + Dropped(t, id)
            == Pending(s, id) + Delivered(s, id) + Dropped(s, id) + (if it.id == id then 1 else 0)
  {
    SumAppend(s.delivered, it.id, IsId(id));
    SumAppend(s.sleepers, Item(it.id, it.count + 1), IsItem(id));
  }

  lemma WakeKeepsAccounted(s: State, i: nat, id: Id)
    requires Accounted(s, id)
    ensures Accounted(Step(s, Wake(i)), id)
  {
    if i < |s.sleepers| {
      SumRemove(s.sleepers, i, IsItem(id));
      SumAppend(s.requeue, s.sleepers[i], IsItem(id));
    }
  }

  lemma ProcessKeepsAccounted(s: State, ok: bool, id: Id)
    requires Accounted(s, id)
    ensures Accounted(Step(s, Process(ok)), id)
  {
    if s.requeue != [] {
      var it, t := s.requeue[0], s.(requeue := s.requeue[1..]);
      TryMoves(t, it, ok, id);
      SumAppend(s.dropped, it.id, IsId(id));
    }
  }

  lemma StepKeepsAccounted(s: State, a: Action, id: Id)
    requires Accounted(s, id)
    ensures Accounted(Step(s, a), id)
  {
    match a
    case Publish(ok) => TryMoves(s.(next := s.next + 1), Item(s.next, 0), ok, id);
    case Wake(i) => WakeKeepsAccounted(s, i, id);
    case Process(ok) => ProcessKeepsAccounted(s, ok, id);
  }

  /** The item at the head of the channel is nowhere else, so counting its try disturbs nobody. */
  lemma HeadIsAlone(s: State)
    requires Inv(s) && s.requeue != []
    ensures var id := s.requeue[0].id;
            && id !in s.delivered && id !in s.dropped
            && (forall it :: it in s.sleepers || it in s.requeue[1..] ==> it.id != id)
  {
    var id := s.requeue[0].id;
    assert Accounted(s, id) && Counted(s, s.requeue[0]);
    if id in s.delivered {
      AtLeastOne(s.delivered, id, IsId(id));
    }
    if id in s.dropped {
      AtLeastOne(s.dropped, id, IsId(id));
    }
    forall it | it in s.sleepers || it in s.requeue[1..] ensures it.id != id {
      if it in s.sleepers {
        AtLeastOne(s.sleepers, it, IsItem(id));
      } else {
        AtLeastOne(s.requeue[1..], it, IsItem(id));
      }
    }
  }

  lemma PublishKeepsCounts(s: State, ok: bool)
    requires Counts(s)
    ensures Counts(Step(s, Publish(ok)))
  {
  }

  lemma WakeKeepsCounts(s: State, i: nat)
    requires Counts(s)
    ensures Counts(Step(s, Wake(i)))
  {
    if i < |s.sleepers| {
      assert s.sleepers[i] in s.sleepers;
      assert forall it :: it in Remove(s.sleepers, i) ==> it in s.sleepers;
    }
  }

  lemma ProcessKeepsCounts(s: State, ok: bool)
    requires Inv(s)
    ensures Counts(Step(s, Process(ok)))
  {
    if s.requeue != [] {
      HeadIsAlone(s);
      assert s.requeue[0] in s.requeue && forall it :: it in s.requeue[1..] ==> it in s.requeue;
    }
  }

  lemma StepKeepsInv(s: State, a: Action)
    requires Inv(s)
    ensures Inv(Step(s, a))
  {
    match a {
      case Publish(ok) => PublishKeepsCounts(s, ok);
      case Wake(i) => WakeKeepsCounts(s, i);
      case Process(ok) => ProcessKeepsCounts(s, ok);
    }
    forall id ensures Accounted(Step(s, a), id) {
      StepKeepsAccounted(s, a, id);
    }
  }

  lemma {:induction false} RunKeepsInv(s: State, acts: seq<Action>)
    requires Inv(s)
    ensures Inv(Run(s, acts))
    decreases |acts|
  {
    if acts != [] {
      StepKeepsInv(s, acts[0]);
      RunKeepsInv(Step(s, acts[0]), acts[1..]);
    }
  }

  /** Over every run each published event is exactly one of delivered, dropped and pending, is tried
      at most six times, and is dropped only after the sixth. */
  lemma PublishedEventsAreAccounted(acts: seq<Action>, id: Id)
    requires id < Run(NEW, acts).next
    ensures var s := Run(NEW, acts);
            && Pending(s, id) + Delivered(s, id) + Dropped(s, id) == 1
            && id in s.tries && 1 <= s.tries[id] <= 6
            && (Dropped(s, id) == 1 ==> s.tries[id] == 6)
  {
    RunKeepsInv(NEW, acts);
    var s := Run(NEW, acts);
    assert Accounted(s, id);
    Somewhere(s.sleepers, id);
    Somewhere(s.requeue, id);
    Listed(s.delivered, id);
    Listed(s.dropped, id);
  }

  lemma {:induction false} Somewhere(s: seq<Item>, id: Id)
    ensures Sum(s, IsItem(id)) > 0 ==> exists it :: it in s && it.id == id
  {
    if s != [] {
      Somewhere(s[1..], id);
      assert s[0] in s;
      assert forall it :: it in s[1..] ==> it in s;
    }
  }

  lemma {:induction false} Listed(s: seq<Id>, id: Id)
    ensures Sum(s, IsId(id)) > 0 ==> id in s
  {
    if s != [] {
      Listed(s[1..], id);
    }
  }

  // ---- What each try does ----

  lemma Fresh(s: State, id: Id)
    requires Inv(s) && id >= s.next
    ensures Pending(s, id) == Delivered(s, id) == Dropped(s, id) == 0
  {
    assert Accounted(s, id);
  }

  /** What a try of one item does to the places of every event. */
  lemma TrySettles(s: State, it: Item, ok: bool, id: Id)
    ensures var t := Try(s, it, ok);
            && Delivered(t, id) == Delivered(s, id) + (if ok && id == it.id then 1 else 0)
            && Pending(t, id) == Pending(s, id) + (if !ok && id == it.id then 1 else 0)
            && Dropped(t, id) == Dropped(s, id)
  {
    SumAppend(s.delivered, it.id, IsId(id));
    SumAppend(s.sleepers, Item(it.id, it.count + 1), IsItem(id));
  }

  lemma PublishSettles(s: State, ok: bool, id: Id)
    requires Inv(s)
    ensures var t := Step(s, Publish(ok));
            && Delivered(t, id) == (if id == s.next then (if ok then 1 else 0) else Delivered(s, id))
            && Pending(t, id) == (if id == s.next then (if ok then 0 else 1) else Pending(s, id))
            && Dropped(t, id) == Dropped(s, id)
  {
    var u := s.(next := s.next + 1);
    assert Delivered(u, id) == Delivered(s, id) && Pending(u, id) == Pending(s, id) && Dropped(u, id) == Dropped(s, id);
    if id == s.next {
      Fresh(s, id);
    }
    TrySettles(u, Item(s.next, 0), ok, id);
  }

  /** A publish is one try: if it succeeds the event is delivered, if it fails it waits for the next.
      Other events stay where they are. */
  lemma PublishTries(acts: seq<Action>, ok: bool, id: Id)
    ensures var s := Run(NEW, acts);
            var t := Step(s, Publish(ok));
            && t.next == s.next + 1 && t.requeue == s.requeue
            && Delivered(t, id) == (if id == s.next then (if ok then 1 else 0) else Delivered(s, id))
            && Pending(t, id) == (if id == s.next then (if ok then 0 else 1) else Pending(s, id))
            && Dropped(t, id) == Dropped(s, id)
            && t.tries == s.tries[s.next := 1]
  {
    RunKeepsInv(NEW, acts);
    PublishSettles(Run(NEW, acts), ok, id);
  }

  /** So is a turn of the queue for the event at its head, which is then delivered or waits again; but an
      event that was tried six times is dropped untried. */
  lemma ProcessTries(acts: seq<Action>, ok: bool, id: Id)
    requires Run(NEW, acts).requeue != []
    ensures var s := Run(NEW, acts);
            var t, it := Step(s, Process(ok)), s.requeue[0];
            var tried := it.count <= 5;
            && t.next == s.next && t.requeue == s.requeue[1..]
            && Delivered(t, id) == (if id == it.id then (if tried && ok then 1 else 0) else Delivered(s, id))
            && Pending(t, id) == (if id == it.id then (if tried && !ok then 1 else 0) else Pending(s, id))
            && Dropped(t, id) == (if id == it.id then (if tried then 0 else 1) else Dropped(s, id))
            && it.id in t.tries && t.tries[it.id] == it.count + (if tried then 1 else 0)
  {
    RunKeepsInv(NEW, acts);
    var s := Run(NEW, acts);
    var it := s.requeue[0];
    assert Accounted(s, it.id) && Counted(s, it);
    TrySettles(s.(requeue := s.requeue[1..]), it, ok, id);
    SumAppend(s.dropped, it.id, IsId(id));
  }

  lemma WakeMoves(s: State, i: nat, id: Id)
    ensures var t := Step(s, Wake(i));
            && Pending(t, id) == Pending(s, id) && Delivered(t, id) == Delivered(s, id)
            && Dropped(t, id) == Dropped(s, id) && t.tries == s.tries && t.next == s.next
            && (i < |s.sleepers| && |s.requeue| < 2048 ==> t.requeue == s.requeue + [s.sleepers[i]])
  {
    if i < |s.sleepers| {
      SumRemove(s.sleepers, i, IsItem(id));
      SumAppend(s.requeue, s.sleepers[i], IsItem(id));
    }
  }

  // ---- Over runs, with the answers read off the actions ----

  /** The answer of the try of id that action a makes in s, if it makes one. */
  function Answer(s: State, a: Action, id: Id): seq<bool> {
    match a
    case Publish(ok) => if id == s.next then [ok] else []
    case Process(ok) => if s.requeue != [] && s.requeue[0].id == id && s.requeue[0].count <= 5 then [ok] else []
    case Wake(_) => []
  }

  /** All answers to tries of id, in order. */
  function Answers(acts: seq<Action>, id: Id): seq<bool> {
    if acts == [] then []
    else
      var before := acts[..|acts| - 1];
      Answers(before, id) + Answer(Run(NEW, before), acts[|acts| - 1], id)
  }

  /** The event is where its answers put it. */
  predicate Settled(s: State, id: Id, answers: seq<bool>) {
    var n := |answers|;
    && (forall i :: 0 <= i < n - 1 ==> !answers[i])
    && (n > 0 <==> id < s.next)
    && (n > 0 ==> id in s.tries && s.tries[id] == n)
    && (Delivered(s, id) == 1 <==> n > 0 && answers[n - 1])
    && (Dropped(s, id) == 1 ==> n == 6)
  }

  /** The same event in the same place. */
  predicate SamePlace(s: State, t: State, id: Id) {
    && Delivered(t, id) == Delivered(s, id) && Dropped(t, id) == Dropped(s, id)
    && (id < t.next <==> id < s.next)
    && (id in s.tries ==> id in t.tries && t.tries[id] == s.tries[id])
  }

  lemma SettledStays(s: State, t: State, id: Id, answers: seq<bool>)
    requires Settled(s, id, answers) && SamePlace(s, t, id)
    ensures Settled(t, id, answers + [])
  {
    assert answers + [] == answers;
  }

  /** After one more try of an event that was tried before and not delivered. */
  lemma SettledAgain(s: State, t: State, id: Id, answers: seq<bool>, ok: bool)
    requires Settled(s, id, answers) && Delivered(s, id) == 0 && id < t.next
    requires id in t.tries && t.tries[id] == |answers| + 1
    requires Delivered(t, id) == (if ok then 1 else 0) && Dropped(t, id) == 0
    ensures Settled(t, id, answers + [ok])
  {
  }

  lemma PublishKeepsSettled(acts: seq<Action>, ok: bool, id: Id, answers: seq<bool>)
    requires Settled(Run(NEW, acts), id, answers)
    ensures var s := Run(NEW, acts); Settled(Step(s, Publish(ok)), id, answers + Answer(s, Publish(ok), id))
  {
    RunKeepsInv(NEW, acts);
    var s := Run(NEW, acts);
    PublishTries(acts, ok, id);
    if id == s.next {
      Fresh(s, id);
      SettledAgain(s, Step(s, Publish(ok)), id, answers, ok);
    } else {
      SettledStays(s, Step(s, Publish(ok)), id, answers);
    }
  }

  lemma ProcessKeepsSettled(acts: seq<Action>, ok: bool, id: Id, answers: seq<bool>)
    requires Settled(Run(NEW, acts), id, answers) && Run(NEW, acts).requeue != []
    ensures var s := Run(NEW, acts); Settled(Step(s, Process(ok)), id, answers + Answer(s, Process(ok), id))
  {
    RunKeepsInv(NEW, acts);
    var s := Run(NEW, acts);
    var it, t := s.requeue[0], Step(s, Process(ok));
    ProcessTries(acts, ok, id);
    assert Accounted(s, id) && Counted(s, it);
    if it.id != id {
      SettledStays(s, t, id, answers);
    } else if it.count <= 5 {
      SettledAgain(s, t, id, answers, ok);
    } else {
      assert answers + [] == answers;
    }
  }

  lemma {:induction false} RunAppend(s: State, acts: seq<Action>, a: Action)
    ensures Run(s, acts + [a]) == Step(Run(s, acts), a)
    decreases |acts|
  {
    if acts == [] {
      assert [a][1..] == [] && [] + [a] == [a];
    } else {
      assert (acts + [a])[1..] == acts[1..] + [a];
      RunAppend(Step(s, acts[0]), acts[1..], a);
    }
  }

  lemma {:induction false} AnswersSettle(acts: seq<Action>, id: Id)
    ensures Settled(Run(NEW, acts), id, Answers(acts, id))
    decreases |acts|
  {
    if acts != [] {
      var before, a := acts[..|acts| - 1], acts[|acts| - 1];
      var s, answers := Run(NEW, before), Answers(before, id);
      AnswersSettle(before, id);
      RunAppend(NEW, before, a);
      assert acts == before + [a];
      match a {
        case Publish(ok) => PublishKeepsSettled(before, ok, id, answers);
        case Wake(i) =>
          WakeMoves(s, i, id);
          assert answers + [] == answers;
        case Process(ok) =>
          if s.requeue != [] {
            ProcessKeepsSettled(before, ok, id, answers);
          } else {
            assert answers + [] == answers;
          }
      }
    }
  }

  /** Over every run a published event is delivered if and only if its last try succeeded, which ends its
      tries; it is pending after one to six failures, and dropped only after six. */
  lemma DeliveredExactly(acts: seq<Action>, id: Id)
    requires id < Run(NEW, acts).next
    ensures var s, answers := Run(NEW, acts), Answers(acts, id);
            && 1 <= |answers| <= 6
            && (forall i :: 0 <= i < |answers| - 1 ==> !answers[i])
            && (Delivered(s, id) == 1 <==> answers[|answers| - 1])
            && (Dropped(s, id) == 1 ==> |answers| == 6 && !answers[5])
            && (Pending(s, id) == 1 ==> !answers[|answers| - 1])
  {
    AnswersSettle(acts, id);
    PublishedEventsAreAccounted(acts, id);
  }

  // ---- The queue drains ----

  function Asleep(): Item -> nat {
    (it: Item) => if it.count <= 6 then 2 * (7 - it.count) else 2
  }

  function Queued(): Item -> nat {
    (it: Item) => if it.count <= 6 then 2 * (7 - it.count) - 1 else 1
  }

  /** The retry allowance that is left. */
  function Work(s: State): nat {
    Sum(s.sleepers, Asleep()) + Sum(s.requeue, Queued())
  }

  /** An action of the publisher itself that can happen now. */
  predicate Moves(s: State, a: Action) {
    (a.Wake? && a.i < |s.sleepers| && |s.requeue| < QUEUE_SIZE) || (a.Process? && s.requeue != [])
  }

  predicate AllMove(s: State, acts: seq<Action>)
    decreases |acts|
  {
    acts != [] ==> Moves(s, acts[0]) && AllMove(Step(s, acts[0]), acts[1..])
  }

  lemma MovesUseUpWork(s: State, a: Action)
    requires Moves(s, a)
    ensures Work(Step(s, a)) < Work(s)
  {
    match a
    case Wake(i) =>
      SumRemove(s.sleepers, i, Asleep());
      SumAppend(s.requeue, s.sleepers[i], Queued());
    case Process(ok) =>
      var it := s.requeue[0];
      SumAppend(s.sleepers, Item(it.id, it.count + 1), Asleep());
  }

  /** With no new publishes the publisher comes to rest, whatever succeeds or fails: it makes no more
      moves than its retry allowance, and where it cannot move nothing is pending. */
  lemma {:induction false} QueueDrains(s: State, acts: seq<Action>)
    requires AllMove(s, acts)
    ensures |acts| + Work(Run(s, acts)) <= Work(s)
    ensures (forall a :: !Moves(Run(s, acts), a)) ==> Run(s, acts).sleepers == Run(s, acts).requeue == []
    decreases |acts|
  {
    if acts != [] {
      MovesUseUpWork(s, acts[0]);
      QueueDrains(Step(s, acts[0]), acts[1..]);
    } else if s.requeue != [] {
      assert Moves(s, Process(true));
    } else if s.sleepers != [] {
      assert Moves(s, Wake(0));
    }
  }
}

/** The publisher object. Its goroutines are the sleepers. */
module RemoteEventsPublisher {
  import opened Common
  import opened PublisherSpec

  class RemoteEventsPublisher {
    var requeue: seq<Item>
    ghost var next: Id
    ghost var sleepers: seq<Item>
    ghost var delivered: seq<Id>
    ghost var dropped: seq<Id>
    ghost var tries: map<Id, nat>

    ghost function View(): State
      reads this
    {
      State(next, sleepers, requeue, delivered, dropped, tries)
    }

    constructor ()
      ensures View() == NEW
    {
      requeue, next, sleepers, delivered, dropped, tries := [], 0, [], [], [], map[];
    }

    /** An event without a namespace, or one that cannot be marshalled, is refused and nothing is
        published. A publish that fails reports the failure and leaves the event to the retries. */
    method Publish(built: bool, ok: bool) returns (err: bool)
      modifies this
      ensures View() == (if built then Step(old(View()), PublisherSpec.Publish(ok)) else old(View()))
      ensures err == !(built && ok)
      ensures delivered == old(delivered) + (if built && ok then [old(next)] else [])
      ensures sleepers == old(sleepers) + (if built && !ok then [Item(old(next), 1)] else [])
      ensures requeue == old(requeue) && dropped == old(dropped) && next == old(next) + (if built then 1 else 0)
    {
      if !built {
        return true;
      }
      ghost var id := next;
      next := next + 1;
      Forward(Item(id, 0), ok);
      return !ok;
    }

    ghost method Forward(it: Item, ok: bool)
      modifies this`tries, this`delivered, this`sleepers
      ensures View() == Try(old(View()), it, ok)
      ensures delivered == old(delivered) + (if ok then [it.id] else [])
      ensures sleepers == old(sleepers) + (if ok then [] else [Item(it.id, it.count + 1)])
    {
      tries := tries[it.id := it.count + 1];
      if ok {
        delivered := delivered + [it.id];
      } else {
        sleepers := sleepers + [Item(it.id, it.count + 1)];
      }
    }

    /** A sleeper's send on the channel. */
    method Requeue(ghost i: nat, it: Item)
      requires i < |sleepers| && sleepers[i] == it && |requeue| < QUEUE_SIZE
      modifies this
      ensures View() == Step(old(View()), Wake(i))
      ensures requeue == old(requeue) + [it] && sleepers == Remove(old(sleepers), i)
    {
      sleepers := Remove(sleepers, i);
      requeue := requeue + [it];
    }

    /** processQueue over what is in the channel, with the answers of the server to its tries. */
    method ProcessQueue(answers: seq<bool>)
      requires |answers| <= |requeue|
      modifies this
      ensures View() == Run(old(View()), seq(|answers|, i requires 0 <= i < |answers| => Process(answers[i])))
      ensures requeue == old(requeue)[|answers|..]
    {
      ghost var acts := seq(|answers|, i requires 0 <= i < |answers| => Process(answers[i]));
      var n := 0;
      while n < |answers|
        invariant 0 <= n <= |answers| && requeue == old(requeue)[n..]
        invariant Run(View(), acts[n..]) == Run(old(View()), acts)
      {
        assert acts[n..][0] == Process(answers[n]) && acts[n..][1..] == acts[n + 1..];
        var it := requeue[0];
        requeue := requeue[1..];
        if it.count > MAX_REQUEUE {
          dropped := dropped + [it.id];
        } else {
          Forward(it, answers[n]);
        }
        n := n + 1;
      }
      assert acts[n..] == [];
    }
  }
}
