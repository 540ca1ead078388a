/** The holder of the shim's one container: a reader-writer lock, a container and a deleted flag
    (shim/ctnholder.go, shim/service.go, shim/shim.go). */
module HolderSpec {
  import opened Common

  datatype Deleter = Client | Cleanup

  /** A goroutine inside the lock. */
  datatype Routine =
    | Creating           // Service.init is in the supplier
    | Shared             // between GetLockedContainer and its release
    | Deleting(who: Deleter)   // between GetLockedContainerForDelete and the answer of performDelete
    | Recording          // background cleanup, about to store the exit status
    | Releasing(who: Deleter)  // about to mark the container deleted

  datatype State = State(
    attempted: bool,
    container: bool,
    deleted: bool,
    readers: nat,
    writer: bool,
    routines: seq<Routine>,
    exitKnown: bool,
    deletions: nat,
    deletedBy: Option<Deleter>)

  /** init creates the container, once; anybody may look it up, shared or for deletion. */
  datatype Action = Create | Lookup | LookupForDelete(who: Deleter) | Go(i: nat, ok: bool)

  datatype Answer = Found | ErrDeleted | ErrNotCreated

  const NEW := State(false, false, false, 0, false, [], false, 0, None)

  /** What either lookup answers once it has the lock. */
  function LookupAnswer(s: State): Answer {
    if s.container then Found else if s.deleted then ErrDeleted else ErrNotCreated
  }

  function Step(s: State, a: Action): State {
    match a
    case Create =>
      if s.attempted || s.writer || s.readers > 0 then s
      else s.(attempted := true, writer := true, routines := s.routines + [Creating])
    case Lookup =>
      if s.writer || !s.container then s
      else s.(readers := s.readers + 1, routines := s.routines + [Shared])
    case LookupForDelete(who) =>
      if s.writer || s.readers > 0 || !s.container then s
      else s.(writer := true, routines := s.routines + [Deleting(who)])
    case Go(i, ok) => if i < |s.routines| then Advance(s, i, ok) else s
  }

  function Leave(s: State, i: nat): State
    requires i < |s.routines|
  {
    s.(routines := Remove(s.routines, i))
  }

  function Advance(s: State, i: nat, ok: bool): State
    requires i < |s.routines|
  {
    match s.routines[i]
    case Creating => Leave(s, i).(container := s.container || ok, writer := false)
    case Shared => Leave(s, i).(readers := if s.readers > 0 then s.readers - 1 else 0)
    case Deleting(who) =>
      if !ok then Leave(s, i).(writer := false)
      else s.(deletions := s.deletions + 1,
              routines := s.routines[i := if who.Cleanup? then Recording else Releasing(Client)])
    case Recording => s.(exitKnown := true, routines := s.routines[i := Releasing(Cleanup)])
    case Releasing(who) => Leave(s, i).(deleted := true, container := false, writer := false, deletedBy := Some(who))
  }

  function Run(s: State, acts: seq<Action>): State
    decreases |acts|
  {
    if acts == [] then s else Run(Step(s, acts[0]), acts[1..])
  }

  /** The lock is what the goroutines inside it make of it, the container exists at most once, and
      the counters tell what deleting it did so far. */
  predicate Inv(s: State) {
    && (if s.writer then s.readers == 0 && |s.routines| == 1 && !s.routines[0].Shared?
        else s.readers == |s.routines| && forall i :: 0 <= i < |s.routines| ==> s.routines[i].Shared?)
    && (s.container || s.deleted || s.writer ==> s.attempted)
    && !(s.container && s.deleted)
    && (s.writer ==> s.container == !s.routines[0].Creating? && !s.deleted)
    && (s.readers > 0 ==> s.container)
    && s.deletions == (if s.deleted || (s.writer && InRelease(s.routines[0])) then 1 else 0)
    && (s.deleted <==> s.deletedBy.Some?)
    && (s.exitKnown <==> s.deletedBy == Some(Cleanup) || (s.writer && s.routines[0] == Releasing(Cleanup)))
  }

  /** Between a deletion that succeeded and its release. */
  predicate InRelease(r: Routine) {
    r.Recording? || r.Releasing?
  }

  lemma StepKeepsInv(s: State, a: Action)
    requires Inv(s)
    ensures Inv(Step(s, a))
    ensures s.deleted ==> Step(s, a).deleted && Step(s, a).deletedBy == s.deletedBy
  {
  }

  lemma {:induction false} RunKeepsInv(s: State, acts: seq<Action>)
    requires Inv(s)
    ensures var t := Run(s, acts); Inv(t) && (s.deleted ==> t.deleted && t.deletedBy == s.deletedBy)
    decreases |acts|
  {
    if acts != [] {
      StepKeepsInv(s, acts[0]);
      RunKeepsInv(Step(s, acts[0]), acts[1..]);
    }
  }

  /** Over every interleaving of client and background deletions, deleting succeeds at most once, and
      while somebody deletes nobody else is inside the lock. */
  lemma DeletedAtMostOnceAndAlone(acts: seq<Action>, i: nat)
    requires i < |Run(NEW, acts).routines|
    ensures var s := Run(NEW, acts);
            && s.deletions <= 1
            && (!s.routines[i].Shared? ==> |s.routines| == 1 && s.container == !s.routines[i].Creating?)
  {
    RunKeepsInv(NEW, acts);
  }

  /** Once deleted, every later lookup says so. */
  lemma DeletedIsForever(before: seq<Action>, after: seq<Action>)
    requires Run(NEW, before).deleted
    ensures var t := Run(Run(NEW, before), after);
            t.deletions == 1 && LookupAnswer(t) == ErrDeleted && t.routines == []
  {
    RunKeepsInv(NEW, before);
    RunKeepsInv(Run(NEW, before), after);
  }

  /** State and Delete read the stored exit status when they are told the container is deleted. It is
      there exactly if the background cleanup, not a client, deleted the container. */
  lemma ExitStatusIsKnownExactly(before: seq<Action>, after: seq<Action>)
    requires Run(NEW, before).deleted
    ensures Run(Run(NEW, before), after).exitKnown <==> Run(NEW, before).deletedBy == Some(Cleanup)
  {
    RunKeepsInv(NEW, before);
    RunKeepsInv(Run(NEW, before), after);
  }

  // ---- What each operation does ----

  /** A lookup finds the container while there is one, and otherwise says whether there was one. */
  lemma LookupsAnswer(acts: seq<Action>)
    ensures var s := Run(NEW, acts);
            && (LookupAnswer(s).Found? <==> s.container)
            && (LookupAnswer(s).ErrDeleted? <==> s.deleted)
            && (LookupAnswer(s).ErrNotCreated? <==> !s.container && !s.deleted)
  {
    RunKeepsInv(NEW, acts);
  }

  /** Creating the container, for the first time: it is there if the supplier made it. */
  lemma CreateAlone(acts: seq<Action>, ok: bool)
    requires !Run(NEW, acts).attempted
    ensures var s := Run(NEW, acts);
            Step(Step(s, Create), Go(|s.routines|, ok)) == s.(attempted := true, container := ok)
  {
    RunKeepsInv(NEW, acts);
    var s := Run(NEW, acts);
    assert s.routines == [] && s.routines + [Creating] == [Creating];
    assert Remove([Creating], 0) == [];
  }

  /** A shared lookup counts as a reader until it is released, and then everything is as before. One that
      has to wait or finds nothing does nothing. */
  lemma LookupAlone(s: State)
    ensures !s.writer && s.container ==>
              && Step(s, Lookup) == s.(readers := s.readers + 1, routines := s.routines + [Shared])
              && Step(Step(s, Lookup), Go(|s.routines|, true)) == s
    ensures s.writer || !s.container ==> Step(s, Lookup) == s
  {
    assert Remove(s.routines + [Shared], |s.routines|) == s.routines;
  }

  /** Deleting alone: a failure leaves everything as it was; a success takes the container away and leaves
      the mark, and the background cleanup has then stored the exit status, which a client does not. */
  lemma DeleteAlone(acts: seq<Action>, who: Deleter)
    requires var s := Run(NEW, acts); s.container && s.routines == []
    ensures var s := Run(NEW, acts);
            var t, ok := Step(s, LookupForDelete(who)), Go(0, true);
            var gone := s.(container := false, deleted := true, deletions := 1, deletedBy := Some(who));
            && t.writer && t.container && t.routines == [Deleting(who)]
            && Step(t, Go(0, false)) == s
            && (who.Client? ==> Step(Step(t, ok), ok) == gone)
            && (who.Cleanup? ==> Step(Step(Step(t, ok), ok), ok) == gone.(exitKnown := true))
  {
    RunKeepsInv(NEW, acts);
    var s := Run(NEW, acts);
    assert Remove([Deleting(who)], 0) == [] && Remove([Releasing(who)], 0) == [];
  }

  /** It can be missing: a client deletes the stopped container, and nobody has stored the status. */
  lemma ClientDeleteForgetsExit()
    ensures var s := Run(NEW, [Create, Go(0, true), LookupForDelete(Client), Go(0, true), Go(0, true)]);
            s.deleted && LookupAnswer(s) == ErrDeleted && !s.exitKnown
  {
    var s := Step(Step(NEW, Create), Go(0, true));
    assert s.routines == [] && s.container;
    var t := Step(Step(s, LookupForDelete(Client)), Go(0, true));
    assert t.routines == [Releasing(Client)];
    RunFive(NEW, Create, Go(0, true), LookupForDelete(Client), Go(0, true), Go(0, true));
  }

  lemma RunFive(s: State, a: Action, b: Action, c: Action, d: Action, e: Action)
    ensures Run(s, [a, b, c, d, e]) == Step(Step(Step(Step(Step(s, a), b), c), d), e)
  {
    var t := Step(s, a);
    var u := Step(t, b);
    var v := Step(u, c);
    var w := Step(v, d);
    assert [e][1..] == [] && [d, e][1..] == [e] && [c, d, e][1..] == [d, e];
    assert [b, c, d, e][1..] == [c, d, e] && [a, b, c, d, e][1..] == [b, c, d, e];
    assert Run(w, [e]) == Step(w, e);
    assert Run(v, [d, e]) == Run(w, [e]);
    assert Run(u, [c, d, e]) == Run(v, [d, e]);
    assert Run(t, [b, c, d, e]) == Run(u, [c, d, e]);
    assert Run(s, [a, b, c, d, e]) == Run(t, [b, c, d, e]);
  }
}

/** The holder object. The closures it hands out are its methods Release, ReleaseDeleted and CancelDelete.
    The mutex is a number of readers and a writer; a caller that has to wait for it gets None, has changed
    nothing, and tries again. */
module ContainerHolder {
  import opened Common
  import opened HolderSpec

  class ContainerHolder {
    var container: bool
    var deleted: bool
    var readers: nat
    var writer: bool
    ghost var attempted: bool
    ghost var routines: seq<Routine>
    ghost var exitKnown: bool
    ghost var deletions: nat
    ghost var deletedBy: Option<Deleter>

    ghost function State(): State
      reads this
    {
      HolderSpec.State(attempted, container, deleted, readers, writer, routines, exitKnown, deletions, deletedBy)
    }

    constructor ()
      ensures State() == NEW
    {
      container, deleted, readers, writer := false, false, 0, false;
      attempted, routines, exitKnown, deletions, deletedBy := false, [], false, 0, None;
    }

    /** The supplier runs with the lock held throughout; when it fails nothing changes. Service.init calls
        this once, and the first call takes the steps of a creation. */
    method NewContainer(supplied: bool) returns (ok: Option<bool>)
      modifies this
      ensures !old(attempted) ==>
                State() == Step(Step(old(State()), Create), Go(|old(routines)|, supplied))
      ensures ok == if old(writer || readers > 0) then None else Some(supplied)
      ensures container == (old(container) || ok == Some(true))
      ensures deleted == old(deleted) && readers == old(readers) && writer == old(writer)
      ensures routines == old(routines)
    {
      if writer || readers > 0 {
        return None;
      }
      writer, attempted := true, true;
      routines := routines + [Creating];
      if supplied {
        container := true;
      }
      writer := false;
      routines := Remove(routines, |routines| - 1);
      return Some(supplied);
    }

    /** A caller that gets the container keeps the read lock, any other gives it back. */
    method GetLockedContainer() returns (a: Option<Answer>)
      modifies this`readers, this`routines
      ensures State() == Step(old(State()), Lookup)
      ensures a == if writer then None else Some(LookupAnswer(State()))
      ensures a == Some(Found) <==> !writer && container
      ensures a == Some(ErrDeleted) <==> !writer && !container && deleted
      ensures readers == old(readers) + (if a == Some(Found) then 1 else 0)
    {
      if writer {
        return None;
      }
      readers := readers + 1;
      if !container {
        readers := readers - 1;
        return Some(if deleted then ErrDeleted else ErrNotCreated);
      }
      routines := routines + [Shared];
      return Some(Found);
    }

    method Release(ghost i: nat)
      requires i < |routines| && routines[i].Shared? && readers > 0
      modifies this`readers, this`routines
      ensures readers == old(readers) - 1
      ensures State() == Step(old(State()), Go(i, true))
    {
      readers := readers - 1;
      routines := Remove(routines, i);
    }

    method GetLockedContainerForDelete(ghost who: Deleter) returns (a: Option<Answer>)
      modifies this`writer, this`routines
      ensures State() == Step(old(State()), LookupForDelete(who))
      ensures a == if old(writer) || readers > 0 then None else Some(LookupAnswer(State()))
      ensures a == Some(Found) <==> !old(writer) && readers == 0 && container
      ensures a == Some(ErrDeleted) <==> !old(writer) && readers == 0 && !container && deleted
      ensures writer == (old(writer) || a == Some(Found))
    {
      if writer || readers > 0 {
        return None;
      }
      writer := true;
      if !container {
        writer := false;
        return Some(if deleted then ErrDeleted else ErrNotCreated);
      }
      routines := routines + [Deleting(who)];
      return Some(Found);
    }

    method ReleaseDeleted(ghost i: nat, ghost who: Deleter)
      requires i < |routines| && routines[i] == Releasing(who)
      modifies this
      ensures deleted && !container && !writer
      ensures State() == Step(old(State()), Go(i, true))
    {
      deleted := true;
      container := false;
      writer := false;
      routines, deletedBy := Remove(routines, i), Some(who);
    }

    method CancelDelete(ghost i: nat)
      requires i < |routines| && routines[i].Deleting?
      modifies this`writer, this`routines
      ensures !writer
      ensures State() == Step(old(State()), Go(i, false))
    {
      writer := false;
      routines := Remove(routines, i);
    }
  }
}
