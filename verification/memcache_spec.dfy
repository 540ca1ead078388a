/** What a buffered task log does to the bytes it accepts, as functions on its state
    (tasklog/memcache.go). The fifo below is an environment that answers each write. */
module LogSpec {
  import opened Common
  import opened Slices

  const MEM_LIMIT: nat := 1024

  /** The fifo's answer to one write. Failed(n) is an error after n bytes went through. */
  datatype Outcome = Wrote | Failed(n: nat) | NotOpened | Refused

  datatype Error = NoError | FifoClosed

  datatype Log = Log(
    closed: bool,
    fifoClosed: bool,
    buffer: seq<Slice>,
    accepted: seq<byte>,
    delivered: seq<byte>,
    dropped: seq<Slice>)

  datatype Event =
    | Write(b: Slice, o: Outcome)
    | Flush(script: seq<Outcome>)
    | CloseIfDrained
    | Close

  const NEW := Log(false, false, [], [], [], [])

  function Flat(chunks: seq<Slice>): seq<byte> {
    if chunks == [] then [] else Bytes(chunks[0]) + Flat(chunks[1..])
  }

  /** The bytes of b that the fifo took. */
  function Taken(b: Slice, o: Outcome): nat {
    match o
    case Wrote => |Bytes(b)|
    case Failed(n) => Min(n, |Bytes(b)|)
    case _ => 0
  }

  function Rest(b: Slice, n: nat): Slice
    requires n <= |Bytes(b)|
  {
    if b.Nil? then Nil else Data(b.bytes[n..])
  }

  /** A write that leaves bytes over puts them at the tail of the buffer. */
  predicate Requeues(b: Slice, o: Outcome) {
    o.NotOpened? || (o.Failed? && Taken(b, o) < |Bytes(b)|)
  }

  /** The buffer after a push, which makes room by evicting the oldest chunk. */
  function Pushed(buffer: seq<Slice>, b: Slice): seq<Slice> {
    var room := if |buffer| == MEM_LIMIT then buffer[1..] else buffer;
    if b.Nil? then room else room + [b]
  }

  function Evicted(buffer: seq<Slice>): seq<Slice> {
    if |buffer| == MEM_LIMIT then [buffer[0]] else []
  }

  /** One attempt to hand b to the fifo; nothing is accepted or dropped here. */
  function WriteFifo(s: Log, b: Slice, o: Outcome): Log {
    var t := s.(delivered := s.delivered + Bytes(b)[..Taken(b, o)]);
    if o.Refused? then s.(closed := true, fifoClosed := s.fifoClosed || s.buffer == [])
    else if Requeues(b, o) then t.(buffer := Pushed(s.buffer, Rest(b, Taken(b, o))))
    else t
  }

  /** The byte count and the error that the attempt reports to its caller. */
  function Reported(b: Slice, o: Outcome): (nat, Error) {
    if o.Refused? then (0, FifoClosed)
    else if o.Failed? && Taken(b, o) == |Bytes(b)| then (0, NoError)
    else (|Bytes(b)|, NoError)
  }

  function AfterWrite(s: Log, b: Slice, o: Outcome): Log {
    if s.closed then s
    else if s.buffer == [] then
      if o.Refused? then WriteFifo(s, b, o)
      else WriteFifo(s, b, o).(accepted := s.accepted + Bytes(b))
    else s.(buffer := Pushed(s.buffer, b), accepted := s.accepted + Bytes(b), dropped := s.dropped + Evicted(s.buffer))
  }

  function WriteResult(s: Log, b: Slice, o: Outcome): (nat, Error) {
    if s.closed then (0, FifoClosed)
    else if s.buffer == [] then Reported(b, o)
    else (|Bytes(b)|, NoError)
  }

  /** The pop that ends a turn; lost tells that nobody has written the chunk it removes. */
  function Popped(s: Log, lost: bool): Log
    requires s.buffer != []
  {
    s.(buffer := s.buffer[1..], dropped := if lost then s.dropped + [s.buffer[0]] else s.dropped)
  }

  /** One turn of the flush loop. The pop that ends it removes the chunk just written, unless
      requeueing its rest into a full buffer evicted that chunk first: then it removes the next one. */
  function FlushTurn(s: Log, o: Outcome): Log
    requires s.buffer != []
  {
    var head := s.buffer[0];
    var t := WriteFifo(s, head, o);
    if o.Refused? && Bytes(head) != [] then t
    else
      Popped(t, Requeues(head, o) && |s.buffer| == MEM_LIMIT)
  }

  function AfterFlush(s: Log, script: seq<Outcome>): Log
    decreases |script|
  {
    if script == [] || s.buffer == [] then s
    else if script[0].Refused? then FlushTurn(s, script[0])
    else AfterFlush(FlushTurn(s, script[0]), script[1..])
  }

  function Step(s: Log, e: Event): Log {
    match e
    case Write(b, o) => AfterWrite(s, b, o)
    case Flush(script) => AfterFlush(s, script)
    case CloseIfDrained => if s.closed && s.buffer == [] then s.(fifoClosed := true) else s
    case Close => s.(closed := true, fifoClosed := s.fifoClosed || s.buffer == [])
  }

  function Run(s: Log, es: seq<Event>): Log
    decreases |es|
  {
    if es == [] then s else Run(Step(s, es[0]), es[1..])
  }
}
