/** The log itself: a closed flag and a ring queue, changed in place under one mutex. */
module MemCachedLog {
  import opened Slices
  import opened LogSpec
  import opened RingQueue
  import P = LogProofs

  class MemCachedLog {
    const buffer: BytesQueue
    var closed: bool
    var fifoClosed: bool
    ghost var accepted: seq<byte>
    ghost var delivered: seq<byte>
    ghost var dropped: seq<Slice>

    ghost predicate Valid()
      reads this, buffer, buffer.buffer
    {
      buffer.Valid() && P.Bounded(State())
    }

    ghost function State(): Log
      requires buffer.Valid()
      reads this, buffer, buffer.buffer
    {
      Log(closed, fifoClosed, buffer.Contents(), accepted, delivered, dropped)
    }

    constructor ()
      ensures Valid() && fresh(buffer) && fresh(buffer.buffer)
      ensures State() == NEW
    {
      buffer := new BytesQueue();
      closed, fifoClosed := false, false;
      accepted, delivered, dropped := [], [], [];
    }

    method Write(b: Slice, o: Outcome) returns (cnt: nat, err: Error)
      requires Valid()
      modifies this, buffer, buffer.buffer
      ensures Valid() && (buffer.buffer == old(buffer.buffer) || fresh(buffer.buffer))
      ensures State() == AfterWrite(old(State()), b, o)
      ensures (cnt, err) == WriteResult(old(State()), b, o)
      ensures err.FifoClosed? <==> old(closed) || (old(buffer.Contents()) == [] && o.Refused?)
      ensures err.NoError? ==> accepted == old(accepted) + Bytes(b) && closed == old(closed)
      ensures err.FifoClosed? ==> cnt == 0 && closed && accepted == old(accepted)
      ensures err.FifoClosed? ==> delivered == old(delivered) && buffer.Contents() == old(buffer.Contents())
    {
      P.WriteKeepsBounded(State(), b, o);
      P.WriteAnswersTruly(State(), b, o);
      if closed {
        return 0, FifoClosed;
      }
      if buffer.size == 0 {
        cnt, err := WriteFifoLocked(b, o);
        accepted := if err.NoError? then accepted + Bytes(b) else accepted;
        return;
      }
      accepted := accepted + Bytes(b);
      dropped := dropped + Evicted(buffer.Contents());
      PushBuffer(b);
      return |Bytes(b)|, NoError;
    }

    method Close()
      requires Valid()
      modifies this`closed, this`fifoClosed
      ensures Valid() && State() == Step(old(State()), LogSpec.Close)
      ensures closed && fifoClosed == (old(fifoClosed) || buffer.Contents() == [])
    {
      closed := true;
      if buffer.size == 0 {
        fifoClosed := true;
      }
    }

    /** lockFreeWriteFifo: write through, and push what the fifo left over. */
    method WriteFifoLocked(b: Slice, o: Outcome) returns (cnt: nat, err: Error)
      requires Valid()
      modifies this, buffer, buffer.buffer
      ensures buffer.Valid() && (buffer.buffer == old(buffer.buffer) || fresh(buffer.buffer))
      ensures State() == WriteFifo(old(State()), b, o)
      ensures (cnt, err) == Reported(b, o)
    {
      cnt := Taken(b, o);
      delivered := delivered + Bytes(b)[..cnt];
      match o
      case Wrote => return cnt, NoError;
      case NotOpened =>
        PushBuffer(b);
        return |Bytes(b)|, NoError;
      case Refused =>
        Close();
        return cnt, FifoClosed;
      case Failed(_) =>
        if cnt == |Bytes(b)| {
          return 0, NoError;
        }
        PushBuffer(Rest(b, cnt));
        return |Bytes(b)|, NoError;
    }

    /** flushBufferToFifo, for the answers the fifo gives to its writes. A script that ends before
        the loop does stands for a flush that is still waiting for its next answer. */
    method FlushBufferToFifo(script: seq<Outcome>)
      requires Valid()
      modifies this, buffer, buffer.buffer
      ensures Valid() && (buffer.buffer == old(buffer.buffer) || fresh(buffer.buffer))
      ensures State() == AfterFlush(old(State()), script)
      ensures accepted == old(accepted)
    {
      P.FlushKeepsClosed(State(), script);
      var i := 0;
      while buffer.size != 0 && i < |script|
        invariant 0 <= i <= |script| && Valid()
        invariant buffer.buffer == old(buffer.buffer) || fresh(buffer.buffer)
        invariant AfterFlush(State(), script[i..]) == AfterFlush(old(State()), script)
      {
        ghost var s := State();
        P.TurnKeepsBounded(s, script[i]);
        assert script[i..][0] == script[i] && script[i..][1..] == script[i + 1..];
        var stop := FlushOnce(script[i]);
        if stop {
          return;
        }
        i := i + 1;
      }
    }

    /** One turn of the flush loop; stop tells that the loop returns. */
    method FlushOnce(o: Outcome) returns (stop: bool)
      requires Valid() && buffer.Contents() != []
      modifies this, buffer, buffer.buffer
      ensures buffer.Valid() && (buffer.buffer == old(buffer.buffer) || fresh(buffer.buffer))
      ensures State() == FlushTurn(old(State()), o) && stop == o.Refused?
    {
      ghost var full := buffer.size == MEM_LIMIT;
      var head := buffer.PeekHead();
      var cnt, err := WriteFifoLocked(head, o);
      stop := EndTurn(head, cnt, err, full && Requeues(head, o));
    }

    /** What a turn does with its chunk once the write has answered. */
    method EndTurn(head: Slice, cnt: nat, err: Error, ghost lost: bool) returns (stop: bool)
      requires buffer.Valid() && buffer.Contents() != [] && cnt <= |Bytes(head)|
      requires !err.NoError? ==> cnt == 0 && buffer.Contents()[0] == head
      modifies this`dropped, buffer, buffer.buffer
      ensures buffer.Valid() && (buffer.buffer == old(buffer.buffer) || fresh(buffer.buffer))
      ensures var s := old(State());
              State() == if err.NoError? then Popped(s, lost) else if Bytes(head) == [] then Popped(s, false) else s
      ensures stop == !err.NoError?
    {
      if err.NoError? {
        PopWritten(lost);
        return false;
      }
      if cnt == |Bytes(head)| {
        PopWritten(false);
        return true;
      }
      assert Rest(head, cnt) == head;
      buffer.SetHead(Rest(head, cnt));
      return true;
    }

    /** The pop that ends a turn; lost tells that it removes a chunk nobody has written. */
    method PopWritten(ghost lost: bool)
      requires buffer.Valid() && buffer.Contents() != []
      modifies this`dropped, buffer
      ensures buffer.Valid() && (buffer.buffer == old(buffer.buffer) || fresh(buffer.buffer))
      ensures State() == Popped(old(State()), lost)
    {
      var popped := buffer.PopHead();
      assert buffer.Contents() == old(buffer.Contents())[1..];
      dropped := if lost then dropped + [popped] else dropped;
    }

    /** The end of the signal handler's critical section after a flush. */
    method CloseFifoIfDrained()
      requires Valid()
      modifies this`fifoClosed
      ensures Valid() && State() == Step(old(State()), CloseIfDrained)
      ensures fifoClosed == (old(fifoClosed) || (closed && buffer.Contents() == []))
    {
      if closed && buffer.size == 0 {
        fifoClosed := true;
      }
    }

    /** unlockedPushBuffer: the oldest chunk makes room at the limit. */
    method PushBuffer(bytes: Slice)
      requires Valid()
      modifies buffer, buffer.buffer
      ensures buffer.Valid() && (buffer.buffer == old(buffer.buffer) || fresh(buffer.buffer))
      ensures buffer.Contents() == Pushed(old(buffer.Contents()), bytes)
      ensures buffer.Contents() == (if |old(buffer.Contents())| == 1024 then old(buffer.Contents())[1..]
                                    else old(buffer.Contents())) + (if bytes.Nil? then [] else [bytes])
    {
      if buffer.size == MEM_LIMIT {
        var _ := buffer.PopHead();
      }
      buffer.PushTail(bytes);
    }
  }
}
