/** What holds of a buffered task log over all its runs. */
module LogProofs {
  import opened Slices
  import opened LogSpec
  import opened Pools

  /** The buffer is bounded and holds no nil; every accepted byte is delivered, buffered or
      dropped, and the log closes its fifo only when there is nothing left to flush. */
  ghost predicate Inv(s: Log) {
    && Bounded(s)
    && forall v: byte :: Sum(s.accepted, Is(v)) == Content(s, v)
  }

  predicate Bounded(s: Log) {
    && |s.buffer| <= MEM_LIMIT
    && (forall i :: 0 <= i < |s.buffer| ==> s.buffer[i].Data?)
    && (s.fifoClosed ==> s.closed && s.buffer == [])
  }

  function Is(v: byte): byte -> nat {
    (b: byte) => if b == v then 1 else 0
  }

  /** How often the byte v is delivered, buffered or dropped. */
  function Content(s: Log, v: byte): nat {
    Sum(s.delivered, Is(v)) + Sum(Flat(s.buffer), Is(v)) + Sum(Flat(s.dropped), Is(v))
  }

  lemma {:induction false} FlatConcat(a: seq<Slice>, b: seq<Slice>)
    ensures Flat(a + b) == Flat(a) + Flat(b)
  {
    if a == [] {
      assert a + b == b;
    } else {
      assert (a + b)[1..] == a[1..] + b;
      FlatConcat(a[1..], b);
    }
  }

  lemma FlatOne(b: Slice)
    ensures Flat([b]) == Bytes(b)
  {
    assert [b][1..] == [];
  }

  lemma FlatAdded(room: seq<Slice>, b: Slice)
    ensures Flat(if b.Nil? then room else room + [b]) == Flat(room) + Bytes(b)
  {
    if b.Data? {
      FlatConcat(room, [b]);
      FlatOne(b);
    }
  }

  lemma FlatPushed(buffer: seq<Slice>, b: Slice)
    ensures Flat(Evicted(buffer)) + Flat(Pushed(buffer, b)) == Flat(buffer) + Bytes(b)
  {
    if |buffer| == MEM_LIMIT {
      FlatAdded(buffer[1..], b);
      FlatOne(buffer[0]);
    } else {
      FlatAdded(buffer, b);
    }
  }

  lemma Cut(b: Slice, n: nat)
    requires n <= |Bytes(b)|
    ensures Bytes(b)[..n] + Bytes(Rest(b, n)) == Bytes(b)
  {
  }

  /** A direct write hands out the first bytes of b and buffers the rest, if there is one. */
  lemma DirectWrite(s: Log, b: Slice, o: Outcome)
    requires !s.closed && s.buffer == [] && !o.Refused?
    ensures var t, n := AfterWrite(s, b, o), Taken(b, o);
            && t.delivered == s.delivered + Bytes(b)[..n] && t.accepted == s.accepted + Bytes(b)
            && Flat(t.buffer) == Bytes(Rest(b, n)) && t.dropped == s.dropped
  {
    var n := Taken(b, o);
    if Requeues(b, o) {
      FlatPushed([], Rest(b, n));
      assert Flat(Pushed([], Rest(b, n))) == Bytes(Rest(b, n));
    }
  }

  lemma CutMoves(b: Slice, n: nat, v: byte)
    requires n <= |Bytes(b)|
    ensures Sum(Bytes(b)[..n], Is(v)) + Sum(Bytes(Rest(b, n)), Is(v)) == Sum(Bytes(b), Is(v))
  {
    Cut(b, n);
    SumConcat(Bytes(b)[..n], Bytes(Rest(b, n)), Is(v));
  }

  lemma DirectWriteMoves(s: Log, b: Slice, o: Outcome, v: byte)
    requires !s.closed && s.buffer == [] && !o.Refused?
    ensures Content(AfterWrite(s, b, o), v) == Content(s, v) + Sum(Bytes(b), Is(v))
  {
    var n := Taken(b, o);
    DirectWrite(s, b, o);
    CutMoves(b, n, v);
    SumConcat(s.delivered, Bytes(b)[..n], Is(v));
  }

  lemma BufferedWriteMoves(s: Log, b: Slice, o: Outcome, v: byte)
    requires !s.closed && s.buffer != []
    ensures Content(AfterWrite(s, b, o), v) == Content(s, v) + Sum(Bytes(b), Is(v))
  {
    FlatPushed(s.buffer, b);
    FlatConcat(s.dropped, Evicted(s.buffer));
    SumConcat(Flat(s.dropped), Flat(Evicted(s.buffer)), Is(v));
    SumConcat(Flat(Evicted(s.buffer)), Flat(Pushed(s.buffer, b)), Is(v));
    SumConcat(Flat(s.buffer), Bytes(b), Is(v));
  }

  lemma WriteKeepsBounded(s: Log, b: Slice, o: Outcome)
    requires Bounded(s)
    ensures Bounded(AfterWrite(s, b, o))
  {
  }

  lemma WriteKeepsInv(s: Log, b: Slice, o: Outcome)
    requires Inv(s)
    ensures Inv(AfterWrite(s, b, o))
  {
    if !s.closed && !(s.buffer == [] && o.Refused?) {
      var t := AfterWrite(s, b, o);
      forall v: byte ensures Sum(t.accepted, Is(v)) == Content(t, v) {
        if s.buffer == [] {
          DirectWriteMoves(s, b, o, v);
        } else {
          BufferedWriteMoves(s, b, o, v);
        }
        SumConcat(s.accepted, Bytes(b), Is(v));
      }
    }
  }

  lemma TurnKeepsBounded(s: Log, o: Outcome)
    requires Bounded(s) && s.buffer != []
    ensures Bounded(FlushTurn(s, o))
  {
  }

  /** The buffer after a turn that requeues the rest of its chunk, and the chunk it loses. */
  lemma RequeueTurn(s: Log, o: Outcome)
    requires Bounded(s) && s.buffer != [] && Requeues(s.buffer[0], o)
    ensures var t, rest := FlushTurn(s, o), Rest(s.buffer[0], Taken(s.buffer[0], o));
            && t.delivered == s.delivered + Bytes(s.buffer[0])[..Taken(s.buffer[0], o)]
            && (|s.buffer| < MEM_LIMIT ==> t.buffer == s.buffer[1..] + [rest] && t.dropped == s.dropped)
            && (|s.buffer| == MEM_LIMIT ==>
                  t.buffer == s.buffer[2..] + [rest] && t.dropped == s.dropped + [s.buffer[1]])
  {
    var rest := Rest(s.buffer[0], Taken(s.buffer[0], o));
    if |s.buffer| == MEM_LIMIT {
      assert (s.buffer[1..] + [rest])[1..] == s.buffer[2..] + [rest];
    } else {
      assert (s.buffer + [rest])[1..] == s.buffer[1..] + [rest];
    }
  }

  /** Any other turn hands out the whole chunk, or nothing of it because the fifo is closed. */
  lemma PlainTurn(s: Log, o: Outcome)
    requires s.buffer != [] && !Requeues(s.buffer[0], o)
    ensures var t, head := FlushTurn(s, o), s.buffer[0];
            && t.dropped == s.dropped
            && (if o.Refused? then t.delivered == s.delivered else t.delivered == s.delivered + Bytes(head))
            && (if o.Refused? && Bytes(head) != [] then t.buffer == s.buffer else t.buffer == s.buffer[1..])
  {
    var head := s.buffer[0];
    assert o.Refused? || Bytes(head)[..Taken(head, o)] == Bytes(head);
  }

  lemma PlainTurnMoves(s: Log, o: Outcome, v: byte)
    requires s.buffer != [] && !Requeues(s.buffer[0], o)
    ensures Content(FlushTurn(s, o), v) == Content(s, v)
  {
    var head := s.buffer[0];
    PlainTurn(s, o);
    SumConcat(s.delivered, Bytes(head), Is(v));
    SumConcat(Bytes(head), Flat(s.buffer[1..]), Is(v));
  }

  /** Moving the rest of the head to the tail keeps every byte. */
  lemma RotationMoves(delivered: seq<byte>, buffer: seq<Slice>, n: nat, v: byte)
    requires buffer != [] && n <= |Bytes(buffer[0])|
    ensures Sum(delivered + Bytes(buffer[0])[..n], Is(v)) + Sum(Flat(buffer[1..] + [Rest(buffer[0], n)]), Is(v))
         == Sum(delivered, Is(v)) + Sum(Flat(buffer), Is(v))
  {
    CutMoves(buffer[0], n, v);
    SumConcat(delivered, Bytes(buffer[0])[..n], Is(v));
    SumConcat(Bytes(buffer[0]), Flat(buffer[1..]), Is(v));
    TailMoves(buffer[1..], Rest(buffer[0], n), v);
  }

  lemma TailMoves(chunks: seq<Slice>, rest: Slice, v: byte)
    ensures Sum(Flat(chunks + [rest]), Is(v)) == Sum(Flat(chunks), Is(v)) + Sum(Bytes(rest), Is(v))
  {
    FlatOne(rest);
    FlatConcat(chunks, [rest]);
    SumConcat(Flat(chunks), Bytes(rest), Is(v));
  }

  /** Dropping the head keeps every byte, if the dropped ones count. */
  lemma DropMoves(dropped: seq<Slice>, chunks: seq<Slice>, v: byte)
    requires chunks != []
    ensures Sum(Flat(dropped + [chunks[0]]), Is(v)) + Sum(Flat(chunks[1..]), Is(v))
         == Sum(Flat(dropped), Is(v)) + Sum(Flat(chunks), Is(v))
  {
    TailMoves(dropped, chunks[0], v);
    SumConcat(Bytes(chunks[0]), Flat(chunks[1..]), Is(v));
  }

  lemma RoomyTurnMoves(s: Log, o: Outcome, v: byte)
    requires Bounded(s) && s.buffer != [] && Requeues(s.buffer[0], o) && |s.buffer| < MEM_LIMIT
    ensures Content(FlushTurn(s, o), v) == Content(s, v)
  {
    RequeueTurn(s, o);
    RotationMoves(s.delivered, s.buffer, Taken(s.buffer[0], o), v);
  }

  lemma FullTurnMoves(s: Log, o: Outcome, v: byte)
    requires Bounded(s) && |s.buffer| == MEM_LIMIT && Requeues(s.buffer[0], o)
    ensures Content(FlushTurn(s, o), v) == Content(s, v)
  {
    var n := Taken(s.buffer[0], o);
    var rotated := s.buffer[1..] + [Rest(s.buffer[0], n)];
    RequeueTurn(s, o);
    RotationMoves(s.delivered, s.buffer, n, v);
    DropMoves(s.dropped, rotated, v);
    assert rotated[0] == s.buffer[1] && rotated[1..] == s.buffer[2..] + [Rest(s.buffer[0], n)];
  }

  lemma TurnKeepsInv(s: Log, o: Outcome)
    requires Inv(s) && s.buffer != []
    ensures Inv(FlushTurn(s, o))
  {
    var t := FlushTurn(s, o);
    TurnKeepsBounded(s, o);
    forall v: byte ensures Sum(t.accepted, Is(v)) == Content(t, v) {
      if !Requeues(s.buffer[0], o) {
        PlainTurnMoves(s, o, v);
      } else if |s.buffer| < MEM_LIMIT {
        RoomyTurnMoves(s, o, v);
      } else {
        FullTurnMoves(s, o, v);
      }
    }
  }

  lemma {:induction false} FlushKeepsInv(s: Log, script: seq<Outcome>)
    requires Inv(s)
    ensures Inv(AfterFlush(s, script))
    decreases |script|
  {
    if script != [] && s.buffer != [] {
      TurnKeepsInv(s, script[0]);
      if !script[0].Refused? {
        FlushKeepsInv(FlushTurn(s, script[0]), script[1..]);
      }
    }
  }

  lemma StepKeepsInv(s: Log, e: Event)
    requires Inv(s)
    ensures Inv(Step(s, e))
  {
    match e
    case Write(b, o) => WriteKeepsInv(s, b, o);
    case Flush(script) => FlushKeepsInv(s, script);
    case _ =>
  }

  /** Conservation over every run, whatever the fifo answers. */
  lemma {:induction false} RunKeepsInv(s: Log, es: seq<Event>)
    requires Inv(s)
    ensures Inv(Run(s, es))
    decreases |es|
  {
    if es != [] {
      StepKeepsInv(s, es[0]);
      RunKeepsInv(Step(s, es[0]), es[1..]);
    }
  }

  lemma {:induction false} SumIsMultiplicity(s: seq<byte>, v: byte)
    ensures Sum(s, Is(v)) == multiset(s)[v]
  {
    if s != [] {
      assert s == [s[0]] + s[1..];
      SumIsMultiplicity(s[1..], v);
    }
  }

  /** Conservation over every run, whatever the fifo answers: as multisets of bytes, accepted is
      delivered plus buffered plus dropped. The buffer never holds more than 1024 chunks, and a log
      that closed its fifo is itself closed with nothing left to flush. */
  lemma AcceptedIsConserved(es: seq<Event>)
    ensures var s := Run(NEW, es);
            && multiset(s.accepted) == multiset(s.delivered) + multiset(Flat(s.buffer)) + multiset(Flat(s.dropped))
            && |s.buffer| <= MEM_LIMIT
            && (s.fifoClosed ==> s.closed && s.buffer == [])
  {
    RunKeepsInv(NEW, es);
    var s := Run(NEW, es);
    forall v: byte
      ensures multiset(s.accepted)[v]
              == multiset(s.delivered)[v] + multiset(Flat(s.buffer))[v] + multiset(Flat(s.dropped))[v]
    {
      SumIsMultiplicity(s.accepted, v);
      SumIsMultiplicity(s.delivered, v);
      SumIsMultiplicity(Flat(s.buffer), v);
      SumIsMultiplicity(Flat(s.dropped), v);
    }
  }

  /** A flush drops at most one chunk, and only if it began with a full buffer. */
  lemma {:induction false} FlushDropsAtMostOne(s: Log, script: seq<Outcome>)
    requires Bounded(s)
    ensures var t := AfterFlush(s, script);
            && s.dropped <= t.dropped
            && |t.dropped| <= |s.dropped| + (if |s.buffer| == MEM_LIMIT then 1 else 0)
    decreases |script|
  {
    if script != [] && s.buffer != [] {
      TurnKeepsBounded(s, script[0]);
      if Requeues(s.buffer[0], script[0]) {
        RequeueTurn(s, script[0]);
      }
      if !script[0].Refused? {
        FlushDropsAtMostOne(FlushTurn(s, script[0]), script[1..]);
      }
    }
  }

  /** The flush that does drop a chunk: the first refusal of a full buffer rotates the head to the
      tail and throws the second chunk away. */
  lemma FullFlushDropsSecond(s: Log, o: Outcome)
    requires Bounded(s) && |s.buffer| == MEM_LIMIT && Requeues(s.buffer[0], o)
    ensures AfterFlush(s, [o]).dropped == s.dropped + [s.buffer[1]]
  {
    RequeueTurn(s, o);
    assert AfterFlush(FlushTurn(s, o), [o][1..]) == FlushTurn(s, o);
  }

  // ---- Order ----

  /** a is b with some elements left out. */
  ghost predicate Subsequence(a: seq<byte>, b: seq<byte>)
    decreases |b|
  {
    if a == [] then true
    else if b == [] then false
    else
      || (a[|a| - 1] == b[|b| - 1] && Subsequence(a[..|a| - 1], b[..|b| - 1]))
      || Subsequence(a, b[..|b| - 1])
  }

  lemma {:induction false} SubsequenceAppend(a: seq<byte>, b: seq<byte>, x: seq<byte>)
    requires Subsequence(a, b)
    ensures Subsequence(a + x, b + x)
    decreases |x|
  {
    if x == [] {
      assert a + x == a && b + x == b;
    } else {
      var init := x[..|x| - 1];
      SubsequenceAppend(a, b, init);
      assert (a + x)[..|a + x| - 1] == a + init && (b + x)[..|b + x| - 1] == b + init;
    }
  }

  /** Leaving out a middle stretch keeps a subsequence. */
  lemma {:induction false} SubsequenceCut(a: seq<byte>, m: seq<byte>, c: seq<byte>, b: seq<byte>)
    requires Subsequence(a + m + c, b)
    ensures Subsequence(a + c, b)
    decreases |b|
  {
    var whole := a + m + c;
    if a + c == [] || whole == [] {
      assert a + c == [];
    } else {
      var init := b[..|b| - 1];
      if Subsequence(whole, init) {
        SubsequenceCut(a, m, c, init);
      } else if c != [] {
        var c' := c[..|c| - 1];
        assert whole[..|whole| - 1] == a + m + c';
        SubsequenceCut(a, m, c', init);
        assert (a + c)[..|a + c| - 1] == a + c';
      } else if m != [] {
        var m' := m[..|m| - 1];
        assert whole[..|whole| - 1] == a + m' + c;
        SubsequenceCut(a, m', c, init);
      } else {
        assert whole == a + c;
      }
    }
  }

  lemma {:induction false} SubsequenceShorter(a: seq<byte>, b: seq<byte>)
    requires Subsequence(a, b)
    ensures |a| <= |b|
    ensures |a| == |b| ==> a == b
    decreases |b|
  {
    if a != [] {
      var init := b[..|b| - 1];
      if Subsequence(a, init) {
        SubsequenceShorter(a, init);
      } else {
        SubsequenceShorter(a[..|a| - 1], init);
        assert a == a[..|a| - 1] + [a[|a| - 1]] && b == init + [b[|b| - 1]];
      }
    }
  }

  /** What went out and what is about to, oldest byte first. */
  function Stream(s: Log): seq<byte> {
    s.delivered + Flat(s.buffer)
  }

  /** No turn of the flush requeues a chunk behind another one. */
  predicate Orderly(s: Log, e: Event) {
    e.Flush? ==> OrderlyFlush(s, e.script)
  }

  predicate OrderlyFlush(s: Log, script: seq<Outcome>)
    decreases |script|
  {
    script != [] && s.buffer != [] ==>
      && (!Requeues(s.buffer[0], script[0]) || |s.buffer| == 1)
      && (!script[0].Refused? ==> OrderlyFlush(FlushTurn(s, script[0]), script[1..]))
  }

  predicate OrderlyRun(s: Log, es: seq<Event>)
    decreases |es|
  {
    es != [] ==> Orderly(s, es[0]) && OrderlyRun(Step(s, es[0]), es[1..])
  }

  lemma Regroup(a: seq<byte>, b: seq<byte>, c: seq<byte>)
    ensures (a + b) + c == a + (b + c)
  {
  }

  /** The only chunk has nobody to fall behind. */
  lemma OnlyChunkKeepsStream(s: Log, o: Outcome)
    requires Bounded(s) && |s.buffer| == 1 && Requeues(s.buffer[0], o)
    ensures Stream(FlushTurn(s, o)) == Stream(s)
  {
    var head := s.buffer[0];
    var n := Taken(head, o);
    RequeueTurn(s, o);
    FlatOne(head);
    FlatOne(Rest(head, n));
    assert s.buffer == [head] && s.buffer[1..] + [Rest(head, n)] == [Rest(head, n)];
    Cut(head, n);
    Regroup(s.delivered, Bytes(head)[..n], Bytes(Rest(head, n)));
  }

  lemma PlainTurnKeepsStream(s: Log, o: Outcome)
    requires s.buffer != [] && !Requeues(s.buffer[0], o)
    ensures Stream(FlushTurn(s, o)) == Stream(s)
  {
    PlainTurn(s, o);
    Regroup(s.delivered, Bytes(s.buffer[0]), Flat(s.buffer[1..]));
    if o.Refused? && Bytes(s.buffer[0]) == [] {
      assert Flat(s.buffer) == Flat(s.buffer[1..]);
    }
  }

  lemma OrderlyTurn(s: Log, o: Outcome)
    requires Bounded(s) && s.buffer != [] && (!Requeues(s.buffer[0], o) || |s.buffer| == 1)
    ensures Stream(FlushTurn(s, o)) == Stream(s)
  {
    if Requeues(s.buffer[0], o) {
      OnlyChunkKeepsStream(s, o);
    } else {
      PlainTurnKeepsStream(s, o);
    }
  }

  lemma {:induction false} OrderlyFlushKeepsStream(s: Log, script: seq<Outcome>)
    requires Bounded(s) && OrderlyFlush(s, script)
    ensures Stream(AfterFlush(s, script)) == Stream(s) && AfterFlush(s, script).accepted == s.accepted
    decreases |script|
  {
    if script != [] && s.buffer != [] {
      OrderlyTurn(s, script[0]);
      TurnKeepsBounded(s, script[0]);
      if !script[0].Refused? {
        OrderlyFlushKeepsStream(FlushTurn(s, script[0]), script[1..]);
      }
    }
  }

  lemma DirectWriteExtendsStream(s: Log, b: Slice, o: Outcome)
    requires !s.closed && s.buffer == [] && !o.Refused?
    ensures Stream(AfterWrite(s, b, o)) == Stream(s) + Bytes(b)
  {
    DirectWrite(s, b, o);
    Cut(b, Taken(b, o));
    Regroup(s.delivered, Bytes(b)[..Taken(b, o)], Bytes(Rest(b, Taken(b, o))));
    assert Stream(s) == s.delivered;
  }

  lemma PushKeepsOrder(sent: seq<byte>, buffer: seq<Slice>, b: Slice, accepted: seq<byte>)
    requires Subsequence(sent + Flat(buffer), accepted)
    ensures Subsequence(sent + Flat(Pushed(buffer, b)), accepted + Bytes(b))
  {
    var gone, kept := Flat(Evicted(buffer)), Flat(Pushed(buffer, b));
    SubsequenceAppend(sent + Flat(buffer), accepted, Bytes(b));
    FlatPushed(buffer, b);
    Regroup(sent, Flat(buffer), Bytes(b));
    Regroup(sent, gone, kept);
    SubsequenceCut(sent, gone, kept, accepted + Bytes(b));
  }

  lemma WriteKeepsOrder(s: Log, b: Slice, o: Outcome)
    requires Subsequence(Stream(s), s.accepted)
    ensures var t := AfterWrite(s, b, o); Subsequence(Stream(t), t.accepted)
  {
    if !s.closed && s.buffer != [] {
      PushKeepsOrder(s.delivered, s.buffer, b, s.accepted);
    } else if !s.closed && !o.Refused? {
      SubsequenceAppend(Stream(s), s.accepted, Bytes(b));
      DirectWriteExtendsStream(s, b, o);
    }
  }

  lemma {:induction false} OrderlyRunKeepsOrder(s: Log, es: seq<Event>)
    requires Inv(s) && Subsequence(Stream(s), s.accepted) && OrderlyRun(s, es)
    ensures var t := Run(s, es); Subsequence(Stream(t), t.accepted)
    decreases |es|
  {
    if es != [] {
      StepKeepsInv(s, es[0]);
      match es[0] {
        case Write(b, o) => WriteKeepsOrder(s, b, o);
        case Flush(script) => OrderlyFlushKeepsStream(s, script);
        case _ =>
      }
      OrderlyRunKeepsOrder(Step(s, es[0]), es[1..]);
    }
  }

  /** The states of the run never show a full buffer. */
  predicate NeverFull(s: Log, es: seq<Event>)
    decreases |es|
  {
    |s.buffer| < MEM_LIMIT && (es != [] ==> NeverFull(Step(s, es[0]), es[1..]))
  }

  lemma {:induction false} NeverFullDropsNothing(s: Log, es: seq<Event>)
    requires Bounded(s) && NeverFull(s, es)
    ensures Run(s, es).dropped == s.dropped
    decreases |es|
  {
    if es != [] {
      match es[0] {
        case Write(b, o) =>
        case Flush(script) =>
          FlushDropsAtMostOne(s, script);
          FlushKeepsBounded(s, script);
        case _ =>
      }
      NeverFullDropsNothing(Step(s, es[0]), es[1..]);
    }
  }

  lemma {:induction false} FlushKeepsBounded(s: Log, script: seq<Outcome>)
    requires Bounded(s)
    ensures Bounded(AfterFlush(s, script))
    decreases |script|
  {
    if script != [] && s.buffer != [] {
      TurnKeepsBounded(s, script[0]);
      if !script[0].Refused? {
        FlushKeepsBounded(FlushTurn(s, script[0]), script[1..]);
      }
    }
  }

  /** What comes out is what went in, in order, with whole dropped chunks left out; it is exactly
      what went in when nothing was dropped, and nothing is dropped below 1024 chunks. */
  lemma OrderIsKept(es: seq<Event>)
    requires OrderlyRun(NEW, es)
    ensures var s := Run(NEW, es);
            && Subsequence(Stream(s), s.accepted)
            && |s.accepted| == |Stream(s)| + |Flat(s.dropped)|
            && (s.dropped == [] ==> Stream(s) == s.accepted)
            && (NeverFull(NEW, es) ==> Stream(s) == s.accepted)
  {
    OrderlyRunKeepsOrder(NEW, es);
    AcceptedIsConserved(es);
    var s := Run(NEW, es);
    assert |multiset(s.accepted)| == |s.accepted|;
    assert |multiset(s.delivered) + multiset(Flat(s.buffer)) + multiset(Flat(s.dropped))|
        == |Stream(s)| + |Flat(s.dropped)|;
    SubsequenceShorter(Stream(s), s.accepted);
    if NeverFull(NEW, es) {
      NeverFullDropsNothing(NEW, es);
    }
  }

  // ---- What each operation does ----

  /** The answer of a write is true. An error comes exactly from a log that is closed or finds its fifo
      closed, and then nothing was taken and nothing moved; without one all of b was accepted. */
  lemma WriteAnswersTruly(s: Log, b: Slice, o: Outcome)
    ensures var (count, err) := WriteResult(s, b, o);
            var t := AfterWrite(s, b, o);
            && (err.FifoClosed? <==> s.closed || (s.buffer == [] && o.Refused?))
            && (err.NoError? ==> t.accepted == s.accepted + Bytes(b) && t.closed == s.closed)
            && (err.FifoClosed? ==>
                  && count == 0 && t.closed && t.accepted == s.accepted && t.delivered == s.delivered
                  && t.buffer == s.buffer && t.dropped == s.dropped)
            && (t.fifoClosed <==> s.fifoClosed || (!s.closed && s.buffer == [] && o.Refused?))
  {
  }

  /** A write to an empty buffer hands the fifo all of b, none of it or its first n bytes, as the fifo
      answers, and buffers what is left; nothing is dropped. */
  lemma DirectWriteSplits(s: Log, b: Slice, o: Outcome)
    requires !s.closed && s.buffer == [] && !o.Refused?
    ensures var t := AfterWrite(s, b, o);
            var k := if o.Wrote? then |Bytes(b)| else if o.NotOpened? then 0
                     else if o.n < |Bytes(b)| then o.n else |Bytes(b)|;
            && t.delivered == s.delivered + Bytes(b)[..k]
            && Flat(t.buffer) == Bytes(b)[k..] && |t.buffer| <= 1
            && t.dropped == s.dropped
  {
    DirectWrite(s, b, o);
  }

  /** A write behind buffered chunks goes to the tail, and the fifo is not asked; the oldest chunk is
      dropped exactly if there are 1024. */
  lemma BufferedWriteWaits(s: Log, b: Slice, o: Outcome)
    requires Bounded(s) && !s.closed && s.buffer != [] && b.Data?
    ensures var t := AfterWrite(s, b, o);
            && t.delivered == s.delivered
            && (|s.buffer| < 1024 ==> t.buffer == s.buffer + [b] && t.dropped == s.dropped)
            && (|s.buffer| == 1024 ==> t.buffer == s.buffer[1..] + [b] && t.dropped == s.dropped + [s.buffer[0]])
  {
    assert s.dropped + [] == s.dropped;
  }

  /** A flush of n chunks to a fifo that takes all of them delivers the whole buffer in order. */
  lemma {:induction false} GoodFlushDrains(s: Log, script: seq<Outcome>)
    requires |script| >= |s.buffer| && forall i :: 0 <= i < |script| ==> script[i].Wrote?
    ensures AfterFlush(s, script) == s.(buffer := [], delivered := s.delivered + Flat(s.buffer))
    decreases |script|
  {
    if s.buffer == [] {
      assert s.delivered + [] == s.delivered;
    } else {
      WrittenTurn(s);
      var t := FlushTurn(s, script[0]);
      assert AfterFlush(s, script) == AfterFlush(t, script[1..]);
      GoodFlushDrains(t, script[1..]);
      Regroup(s.delivered, Bytes(s.buffer[0]), Flat(s.buffer[1..]));
    }
  }

  /** A flush that finds the fifo closed closes the log and keeps the buffer, but for an empty chunk. */
  lemma RefusedFlushStops(s: Log, script: seq<Outcome>)
    requires script != [] && script[0].Refused? && s.buffer != []
    ensures AfterFlush(s, script)
            == s.(closed := true, buffer := if Bytes(s.buffer[0]) == [] then s.buffer[1..] else s.buffer)
  {
  }

  /** A short write in a flush moves the chunk's rest to the tail, and the flush goes on. */
  lemma ShortFlushGoesOn(s: Log, n: nat, script: seq<Outcome>)
    requires Bounded(s) && 0 < |s.buffer| < 1024 && n < |Bytes(s.buffer[0])|
    ensures var head := Bytes(s.buffer[0]);
            AfterFlush(s, [Failed(n)] + script)
            == AfterFlush(s.(delivered := s.delivered + head[..n], buffer := s.buffer[1..] + [Data(head[n..])]), script)
  {
    RequeueTurn(s, Failed(n));
    assert ([Failed(n)] + script)[1..] == script;
    FlushMore(s, [Failed(n)] + script);
  }

  /** Close closes the log, and its fifo unless there is something to flush; the signal handler makes up
      for that when the buffer is empty. Neither does anything else. */
  lemma ClosesWhenDrained(s: Log)
    ensures Step(s, Close) == s.(closed := true, fifoClosed := s.fifoClosed || s.buffer == [])
    ensures Step(s, CloseIfDrained) == s.(fifoClosed := s.fifoClosed || (s.closed && s.buffer == []))
  {
  }

  // ---- Where order and byte counts break ----

  /** Whatever the chunks hold, a turn over this many chunks leaves the stream as it was. */
  ghost predicate TurnKeepsStream(chunks: nat, o: Outcome) {
    forall s: Log :: Bounded(s) && |s.buffer| == chunks > 0 ==> Stream(FlushTurn(s, o)) == Stream(s)
  }

  /** The log whose first chunk is one byte longer than the fifo takes. */
  function Reorderable(chunks: nat, o: Outcome): Log
    requires chunks > 0
  {
    var n := if o.Failed? then o.n else 0;
    NEW.(buffer := [Data(seq(n + 1, _ => 0))] + seq(chunks - 1, _ => Data([1])))
  }

  lemma RequeueReorders(chunks: nat, o: Outcome)
    requires 1 < chunks <= MEM_LIMIT && (o.Failed? || o.NotOpened?)
    ensures Bounded(Reorderable(chunks, o))
    ensures Stream(FlushTurn(Reorderable(chunks, o), o)) != Stream(Reorderable(chunks, o))
  {
    var s := Reorderable(chunks, o);
    var n, head := Taken(s.buffer[0], o), s.buffer[0];
    var t := FlushTurn(s, o);
    RequeueTurn(s, o);
    assert Stream(s)[n] == 0;
    if chunks < MEM_LIMIT {
      assert t.buffer == [Data([1])] + t.buffer[1..];
    } else {
      assert s.buffer[2..][0] == Data([1]);
    }
    assert t.buffer[0] == Data([1]);
    assert Stream(t)[n] == 1;
  }

  /** Order inside a flush survives exactly when the fifo takes the whole chunk or refuses for
      good, or when there is no other chunk to overtake. */
  lemma TurnKeepsStreamExactly(chunks: nat, o: Outcome)
    requires 0 < chunks <= MEM_LIMIT
    ensures TurnKeepsStream(chunks, o) <==> o.Wrote? || o.Refused? || chunks == 1
  {
    if o.Wrote? || o.Refused? || chunks == 1 {
      forall s: Log | Bounded(s) && |s.buffer| == chunks > 0 ensures Stream(FlushTurn(s, o)) == Stream(s) {
        OrderlyTurn(s, o);
      }
    } else {
      RequeueReorders(chunks, o);
    }
  }

  lemma FlushMore(s: Log, script: seq<Outcome>)
    requires script != [] && s.buffer != [] && !script[0].Refused?
    ensures AfterFlush(s, script) == AfterFlush(FlushTurn(s, script[0]), script[1..])
  {
  }

  lemma RefusedTurn(s: Log, a: Slice, b: Slice)
    requires s.buffer == [a, b] && a.Data?
    ensures FlushTurn(s, NotOpened) == s.(buffer := [b, a])
  {
    assert Bytes(a)[..0] == [] && s.delivered + [] == s.delivered;
    assert Rest(a, 0) == a && (s.buffer + [a])[1..] == [b, a];
  }

  lemma WrittenTurn(s: Log)
    requires s.buffer != []
    ensures FlushTurn(s, Wrote) == s.(buffer := s.buffer[1..], delivered := s.delivered + Bytes(s.buffer[0]))
  {
    assert Bytes(s.buffer[0])[..|Bytes(s.buffer[0])|] == Bytes(s.buffer[0]);
  }

  lemma SwappingFlush(s: Log, a: Slice, b: Slice)
    requires s.buffer == [a, b] && a.Data?
    ensures AfterFlush(s, [NotOpened, Wrote, Wrote]) == s.(buffer := [], delivered := s.delivered + Bytes(b) + Bytes(a))
  {
    var script := [NotOpened, Wrote, Wrote];
    assert script[1..] == [Wrote, Wrote] && [Wrote, Wrote][1..] == [Wrote] && [Wrote][1..] == [];
    RefusedTurn(s, a, b);
    FlushMore(s, script);
    var t := s.(buffer := [b, a]);
    WrittenTurn(t);
    FlushMore(t, [Wrote, Wrote]);
    var u := FlushTurn(t, Wrote);
    WrittenTurn(u);
    FlushMore(u, [Wrote]);
  }

  lemma BufferingWrite(s: Log, b: Slice)
    requires !s.closed && |s.buffer| < MEM_LIMIT && b.Data?
    ensures AfterWrite(s, b, NotOpened) == s.(buffer := s.buffer + [b], accepted := s.accepted + Bytes(b))
  {
    assert Bytes(b)[..0] == [] && s.delivered + [] == s.delivered && Rest(b, 0) == b;
    assert s.dropped + [] == s.dropped && (s.buffer == [] ==> [b] == s.buffer + [b]);
  }

  lemma RunThree(s: Log, a: Event, b: Event, c: Event)
    ensures Run(s, [a, b, c]) == Step(Step(Step(s, a), b), c)
  {
    var t := Step(s, a);
    assert [a, b, c][1..] == [b, c] && [b, c][1..] == [c] && [c][1..] == [];
    assert Run(Step(t, b), [c]) == Step(Step(t, b), c);
    assert Run(t, [b, c]) == Run(Step(t, b), [c]);
  }

  /** Two one-byte writes to a fifo that is not open, and a flush that is refused once, come out swapped. */
  lemma RefusedFlushSwaps()
    ensures var s := Run(NEW, [Write(Data([1]), NotOpened), Write(Data([2]), NotOpened),
                               Flush([NotOpened, Wrote, Wrote])]);
            s.accepted == [1, 2] && s.delivered == [2, 1] && s.buffer == []
  {
    RunThree(NEW, Write(Data([1]), NotOpened), Write(Data([2]), NotOpened), Flush([NotOpened, Wrote, Wrote]));
    BufferingWrite(NEW, Data([1]));
    var s := AfterWrite(NEW, Data([1]), NotOpened);
    BufferingWrite(s, Data([2]));
    SwappingFlush(AfterWrite(s, Data([2]), NotOpened), Data([1]), Data([2]));
  }

  /** A write that reports no error reports the length of its argument, except when the fifo took
      every byte of a direct write and failed only then: that write reports 0. */
  lemma WriteCountsExactly(s: Log, b: Slice, o: Outcome)
    requires WriteResult(s, b, o).1.NoError?
    ensures WriteResult(s, b, o).0 == |Bytes(b)|
            <==> !(s.buffer == [] && o.Failed? && o.n >= |Bytes(b)| > 0)
  {
  }

  /** It does: the fifo takes the only byte of a first write and then fails. */
  lemma WholeWriteReportsZero()
    ensures WriteResult(NEW, Data([1]), Failed(1)) == (0, NoError)
    ensures var s := AfterWrite(NEW, Data([1]), Failed(1)); s.delivered == s.accepted == [1] && s.buffer == []
  {
    DirectWrite(NEW, Data([1]), Failed(1));
    assert Bytes(Data([1]))[..1] == [1];
  }

  /** A closed log never reopens and accepts nothing more; what it buffered can still go out. */
  lemma {:induction false} ClosedIsForever(s: Log, es: seq<Event>)
    requires s.closed
    ensures Run(s, es).closed && Run(s, es).accepted == s.accepted
    decreases |es|
  {
    if es != [] {
      if es[0].Flush? {
        FlushKeepsClosed(s, es[0].script);
      }
      ClosedIsForever(Step(s, es[0]), es[1..]);
    }
  }

  lemma {:induction false} FlushKeepsClosed(s: Log, script: seq<Outcome>)
    ensures AfterFlush(s, script).accepted == s.accepted
    ensures s.closed ==> AfterFlush(s, script).closed
    decreases |script|
  {
    if script != [] && s.buffer != [] && !script[0].Refused? {
      FlushKeepsClosed(FlushTurn(s, script[0]), script[1..]);
    }
  }
}
