/** A Go byte slice, with nil kept apart from the empty slice (utils/collections/queue/bytes.go). */
module Slices {
  type byte = b: int | 0 <= b < 256

  datatype Slice = Nil | Data(bytes: seq<byte>)

  function Bytes(b: Slice): seq<byte> {
    if b.Nil? then [] else b.bytes
  }
}

/** How the size and the capacity of the ring move, and what moving them costs. */
module QueueGeometry {
  import opened Common

  const INIT_CAP: nat := 5

  datatype Geometry = Geometry(size: nat, cap: nat)

  datatype Op = Push | PushNil | Pop

  const NEW := Geometry(0, INIT_CAP)

  /** The capacity that expand asks for when the ring is full. */
  function Grown(cap: nat): nat {
    Max(cap + 1, Max(cap + 5, cap * 3 / 2))
  }

  /** Whether shrink reallocates a ring of capacity cap that holds size elements. */
  predicate Shrinks(size: nat, cap: nat) {
    cap > INIT_CAP && size <= cap / 2
  }

  function Shrunk(cap: nat): nat {
    Max(INIT_CAP, cap * 7 / 10)
  }

  function Apply(g: Geometry, op: Op): Geometry {
    match op
    case PushNil => g
    case Push => Geometry(g.size + 1, if 0 < g.size && g.cap < g.size + 1 then Grown(g.cap) else g.cap)
    case Pop =>
      if g.size <= 1 then Geometry(0, g.cap)
      else Geometry(g.size - 1, if Shrinks(g.size - 1, g.cap) then Shrunk(g.cap) else g.cap)
  }

  /** Slots copied by the reallocation that op triggers, 0 if it triggers none. */
  function Cost(g: Geometry, op: Op): nat {
    match op
    case PushNil => 0
    case Push => if 0 < g.size && g.cap < g.size + 1 then g.size else 0
    case Pop => if 1 < g.size && Shrinks(g.size - 1, g.cap) then g.size - 1 else 0
  }

  function Run(g: Geometry, ops: seq<Op>): Geometry
    decreases |ops|
  {
    if ops == [] then g else Run(Apply(g, ops[0]), ops[1..])
  }

  function TotalCost(g: Geometry, ops: seq<Op>): nat
    decreases |ops|
  {
    if ops == [] then 0 else Cost(g, ops[0]) + TotalCost(Apply(g, ops[0]), ops[1..])
  }

  /** The ring is never more than half empty above the initial capacity. */
  predicate Dense(g: Geometry) {
    INIT_CAP <= g.cap && g.size <= g.cap && (g.cap == INIT_CAP || g.cap / 2 < g.size)
  }

  /** A full ring grows by half, and by five slots at least. */
  lemma GrowsByHalf(g: Geometry)
    requires Dense(g)
    ensures var c := Apply(g, Push).cap;
            if g.size < g.cap then c == g.cap
            else c >= g.cap + 5 && 3 * g.cap - 1 <= 2 * c && (c == g.cap + 5 || 2 * c <= 3 * g.cap)
    ensures Apply(g, Push).size == g.size + 1 && Apply(g, PushNil) == g
  {
  }

  /** A ring above the initial capacity that is half empty after a pop shrinks by three tenths, and not below
      the initial capacity. */
  lemma ShrinksByThreeTenths(g: Geometry)
    requires Dense(g) && g.size > 1
    ensures var c := Apply(g, Pop).cap;
            if g.cap <= 5 || 2 * (g.size - 1) > g.cap then c == g.cap
            else c >= 5 && 7 * g.cap - 9 <= 10 * c && (c == 5 || 10 * c <= 7 * g.cap)
    ensures Apply(g, Pop).size == g.size - 1
  {
  }

  /** An operation that changes the capacity copies every element that stays, any other copies none. */
  lemma CopiesWhatStays(g: Geometry)
    requires Dense(g)
    ensures Cost(g, Push) == if Apply(g, Push).cap != g.cap then g.size else 0
    ensures Cost(g, Pop) == if Apply(g, Pop).cap != g.cap then g.size - 1 else 0
  {
  }

  lemma ApplyKeepsDense(g: Geometry, op: Op)
    requires Dense(g)
    ensures Dense(Apply(g, op))
  {
  }

  /** Every queue a program can reach has capacity at most max(5, 2*size - 1). */
  lemma {:induction false} CapacityIsTight(g: Geometry, ops: seq<Op>)
    requires Dense(g)
    ensures Dense(Run(g, ops))
    ensures Run(g, ops).cap <= Max(INIT_CAP, 2 * Run(g, ops).size - 1)
    decreases |ops|
  {
    if ops != [] {
      ApplyKeepsDense(g, ops[0]);
      CapacityIsTight(Apply(g, ops[0]), ops[1..]);
    }
  }

  /** On a reachable queue, shrink fires exactly when half the slots are used, and a pop
      that empties the queue, which skips shrink, finds the initial capacity. */
  lemma ShrinkFiresAtHalf(ops: seq<Op>)
    ensures var g := Run(NEW, ops);
            && (g.size > 1 ==> (Apply(g, Pop).cap != g.cap <==> g.cap > INIT_CAP && g.size - 1 == g.cap / 2))
            && (g.size <= 1 ==> g.cap == INIT_CAP)
  {
    CapacityIsTight(NEW, ops);
  }

  /** Twice the potential: what earlier cheap operations have saved for the next copy. */
  function Credit(g: Geometry): nat {
    Max(0, Max(16 * g.size - 14 * g.cap, if g.cap > INIT_CAP then 9 * g.cap - 16 * g.size else 0))
  }

  lemma PushIsAmortized(g: Geometry)
    requires Dense(g)
    ensures 2 * Cost(g, Push) + Credit(Apply(g, Push)) <= Credit(g) + 16
  {
  }

  lemma PopIsAmortized(g: Geometry)
    requires Dense(g)
    ensures 2 * Cost(g, Pop) + Credit(Apply(g, Pop)) <= Credit(g) + 16
  {
  }

  lemma {:induction false} CostIsAmortized(g: Geometry, ops: seq<Op>)
    requires Dense(g)
    ensures 2 * TotalCost(g, ops) + Credit(Run(g, ops)) <= Credit(g) + 16 * |ops|
    decreases |ops|
  {
    if ops != [] {
      PushIsAmortized(g);
      PopIsAmortized(g);
      ApplyKeepsDense(g, ops[0]);
      CostIsAmortized(Apply(g, ops[0]), ops[1..]);
    }
  }

  /** Growing and shrinking never thrash: n operations copy at most 8n slots. */
  lemma CopyingIsLinear(ops: seq<Op>)
    ensures TotalCost(NEW, ops) <= 8 * |ops|
  {
    CostIsAmortized(NEW, ops);
  }
}

/** The source multiplies capacities by float32 factors. The factors 1.5 and 0.5 are exact; 0.7 is
    not, and neither is its product, yet truncating the product gives the integer quotient. */
module ShrinkFactor {
  const ONE: nat := 0x100_0000   // 2^24
  const FACTOR: nat := 11744051  // float32(0.7) * 2^24

  /** m * ulp / 2^24 is a float32 nearest to cap * float32(0.7): both are counted in units of 2^-24,
      ulp = 2^24 / d is the spacing of the float32 numbers around the product. Ties may go either way. */
  predicate Rounds(cap: nat, d: nat, ulp: nat, m: nat) {
    var exact := cap * FACTOR;
    && d * ulp == ONE
    && ONE / 2 * ulp <= exact < ONE * ulp
    && 2 * (m * ulp - exact) <= ulp
    && 2 * (exact - m * ulp) <= ulp
  }

  lemma Distribute(a: nat, b: nat, c: nat)
    ensures (a + b) * c == a * c + b * c >= a * c
  {
  }

  lemma MultiplesAreApart(m: nat, n: nat, ulp: nat)
    ensures m < n ==> m * ulp + ulp <= n * ulp
    ensures n <= m ==> n * ulp <= m * ulp
  {
    Distribute(m, 1, ulp);
    if m < n {
      Distribute(m + 1, n - (m + 1), ulp);
    } else {
      Distribute(n, m - n, ulp);
    }
  }

  function Power(k: nat): nat {
    if k == 0 then 1 else 2 * Power(k - 1)
  }

  lemma HalveAndDouble(h: nat, ulp: nat)
    ensures h * (2 * ulp) == (2 * h) * ulp
  {
  }

  /** Halving d and doubling ulp finds the spacing of the float32 numbers around the product. */
  lemma {:induction false} Spacing(exact: nat, k: nat, ulp: nat) returns (d': nat, ulp': nat)
    requires Power(k) * ulp == 0x100_0000
    requires 0x80_0000 * ulp <= exact < 0x1_0000_0000_0000
    ensures d' * ulp' == 0x100_0000 && 0x80_0000 * ulp' <= exact < 0x100_0000 * ulp'
    decreases k
  {
    if exact < 0x100_0000 * ulp {
      return Power(k), ulp;
    }
    assert k != 0;
    HalveAndDouble(Power(k - 1), ulp);
    d', ulp' := Spacing(exact, k - 1, 2 * ulp);
  }

  lemma Nearest(exact: nat, ulp: nat) returns (m: nat)
    requires ulp > 0
    ensures 2 * (m * ulp - exact) <= ulp && 2 * (exact - m * ulp) <= ulp
  {
    var k := 2 * ulp;
    m := (2 * exact + ulp) / k;
    assert 2 * exact + ulp == m * k + (2 * exact + ulp) % k;
    HalveAndDouble(m, ulp);
    Regroup(2, m, ulp);
  }

  lemma Regroup(a: nat, b: nat, c: nat)
    ensures (a * b) * c == a * (b * c)
  {
  }

  lemma PowerOf24()
    ensures Power(24) == 0x100_0000
  {
    assert Power(6) == 0x40;
    assert Power(12) == 0x1000;
    assert Power(18) == 0x4_0000;
  }

  /** Each of these capacities has such a product. */
  lemma EveryCapacityRounds(cap: nat) returns (d: nat, ulp: nat, m: nat)
    requires 0 < cap <= 100000
    ensures Rounds(cap, d, ulp, m)
  {
    var exact := cap * FACTOR;
    PowerOf24();
    d, ulp := Spacing(exact, 24, 1);
    m := Nearest(exact, ulp);
  }

  /** The product misses a tenth of a unit by so little that its rounding stays above the quotient. */
  lemma RoundingStaysAbove(cap: nat, q: nat, ulp: nat, y: nat)
    requires q * 10 <= cap * 7 && 0 < cap && cap * FACTOR < 0x100_0000 * ulp
    requires 2 * (cap * FACTOR - y) <= ulp
    ensures y + ulp > q * 0x100_0000
  {
  }

  lemma RoundingStaysBelow(cap: nat, q: nat, ulp: nat, y: nat)
    requires cap * 7 < (q + 1) * 10 && cap <= 100000 && 0x80_0000 * ulp <= cap * FACTOR
    requires 2 * (y - cap * FACTOR) <= ulp
    ensures y < (q + 1) * 0x100_0000
  {
  }

  /** For every capacity up to a hundred thousand, int(float32(cap) * 0.7) is cap * 7 / 10. The log's
      ring has at most 1024 chunks and so, by CapacityIsTight, at most 2047 slots. */
  lemma FloatShrinkIsIntegerShrink(cap: nat, d: nat, ulp: nat, m: nat)
    requires 0 < cap <= 100000 && Rounds(cap, d, ulp, m)
    ensures m * ulp / ONE == cap * 7 / 10
  {
    var q, y := cap * 7 / 10, m * ulp;
    Regroup(q, d, ulp);
    MultiplesAreApart(m, q * d, ulp);
    RoundingStaysAbove(cap, q, ulp, y);
    RoundingStaysBelow(cap, q, ulp, y);
    assert q * ONE <= y < (q + 1) * ONE;
  }
}

/** The ring buffer itself, in place on an array that is replaced when it grows or shrinks. */
module RingQueue {
  import opened Common
  import opened Slices
  import G = QueueGeometry

  /** The array position of the k-th element of a ring that starts at head. */
  function Slot(head: nat, k: nat, cap: nat): nat
    requires head < cap && k < cap
  {
    if head + k < cap then head + k else head + k - cap
  }

  /** One step round the ring (nextHead, nextTail). */
  function Next(i: nat, cap: nat): (r: nat)
    requires i < cap
    ensures r == if i + 1 == cap then 0 else i + 1
  {
    (i + 1) % cap
  }

  /** The size slots that start at head, wrapping round the end of the array. */
  function Window(slots: seq<Slice>, head: nat, size: nat): seq<Slice>
    requires head < |slots| && size <= |slots|
  {
    seq(size, k requires 0 <= k < size => slots[Slot(head, k, |slots|)])
  }

  predicate NoNil(s: seq<Slice>) {
    forall i :: 0 <= i < |s| ==> s[i].Data?
  }

  lemma WindowPush(slots: seq<Slice>, head: nat, size: nat, x: Slice)
    requires head < |slots| && size < |slots|
    ensures Window(slots[Slot(head, size, |slots|) := x], head, size + 1) == Window(slots, head, size) + [x]
  {
  }

  lemma WindowPop(slots: seq<Slice>, head: nat, size: nat)
    requires head < |slots| && 1 < size <= |slots|
    ensures [slots[head]] + Window(slots, Slot(head, 1, |slots|), size - 1) == Window(slots, head, size)
  {
  }

  lemma WindowSet(slots: seq<Slice>, head: nat, size: nat, x: Slice)
    requires head < |slots| && 0 < size <= |slots|
    ensures Window(slots[head := x], head, size) == [x] + Window(slots, head, size)[1..]
  {
  }

  class BytesQueue {
    var buffer: array<Slice>
    var size: nat
    var head: nat
    var tail: nat
    ghost var copied: nat

    /** The indices describe a window of the array. An empty queue keeps head and tail equal. */
    ghost predicate Ring()
      reads this, buffer
    {
      && head < buffer.Length && size <= buffer.Length
      && tail == (if size == 0 then head else Slot(head, size - 1, buffer.Length))
      && NoNil(Window(buffer[..], head, size))
    }

    ghost predicate Valid()
      reads this, buffer
    {
      Ring() && G.Dense(Shape())
    }

    ghost function Contents(): (s: seq<Slice>)
      requires Ring()
      reads this, buffer
    {
      Window(buffer[..], head, size)
    }

    ghost function Shape(): G.Geometry
      reads this, buffer
    {
      G.Geometry(size, buffer.Length)
    }

    constructor ()
      ensures Valid() && fresh(buffer)
      ensures Contents() == [] && Shape() == G.NEW && copied == 0
    {
      buffer := new Slice[G.INIT_CAP](_ => Nil);
      size, head, tail, copied := 0, 0, 0, 0;
    }

    method PushTail(bytes: Slice)
      requires Valid()
      modifies this, buffer
      ensures Valid() && (buffer == old(buffer) || fresh(buffer))
      ensures Contents() == if bytes.Nil? then old(Contents()) else old(Contents()) + [bytes]
      ensures var op := if bytes.Nil? then G.PushNil else G.Push;
              && Shape() == G.Apply(old(Shape()), op)
              && copied == old(copied) + G.Cost(old(Shape()), op)
    {
      if bytes.Nil? {
        return;
      }
      if size == 0 {
        StoreFirst(bytes);
        return;
      }
      Append(bytes);
    }

    method Append(bytes: Slice)
      requires Valid() && 0 < size && bytes.Data?
      modifies this, buffer
      ensures Ring() && (buffer == old(buffer) || fresh(buffer))
      ensures Contents() == old(Contents()) + [bytes]
      ensures Shape() == G.Apply(old(Shape()), G.Push) && copied == old(copied) + G.Cost(old(Shape()), G.Push)
    {
      EnsureCapacity(size + 1);
      Store(bytes);
    }

    /** The empty queue has head and tail in the same slot, and fills it. */
    method StoreFirst(bytes: Slice)
      requires Ring() && size == 0 && bytes.Data?
      modifies this`size, buffer
      ensures Ring() && size == 1 && copied == old(copied)
      ensures Contents() == [bytes]
    {
      WindowPush(buffer[..], head, 0, bytes);
      ghost var slots := buffer[..];
      buffer[tail] := bytes;
      assert buffer[..] == slots[tail := bytes];
      size := size + 1;
    }

    /** The second half of PushTail: fill the slot after the tail. */
    method Store(bytes: Slice)
      requires Ring() && 0 < size < buffer.Length && bytes.Data?
      modifies this, buffer
      ensures Ring() && buffer == old(buffer) && size == old(size) + 1 && copied == old(copied)
      ensures Contents() == old(Contents()) + [bytes]
    {
      WindowPush(buffer[..], head, size, bytes);
      ghost var slots := buffer[..];
      var next := Next(tail, buffer.Length);
      buffer[next] := bytes;
      assert buffer[..] == slots[next := bytes];
      tail := next;
      size := size + 1;
    }

    /** The head element, or nil for an empty queue. */
    method PeekHead() returns (r: Slice)
      requires Valid()
      ensures r == if Contents() == [] then Nil else Contents()[0]
    {
      if size == 0 {
        return Nil;
      }
      r := buffer[head];
    }

    /** An assignment through the pointer that PeekHead hands out. */
    method SetHead(bytes: Slice)
      requires Valid() && Contents() != [] && bytes.Data?
      modifies buffer
      ensures Valid()
      ensures Contents() == [bytes] + old(Contents())[1..]
    {
      WindowSet(buffer[..], head, size, bytes);
      ghost var slots := buffer[..];
      buffer[head] := bytes;
      assert buffer[..] == slots[head := bytes];
    }

    method PopHead() returns (r: Slice)
      requires Valid()
      modifies this
      ensures Valid() && (buffer == old(buffer) || fresh(buffer))
      ensures old(Contents()) == [] ==> r == Nil && Contents() == []
      ensures old(Contents()) != [] ==> [r] + Contents() == old(Contents())
      ensures Shape() == G.Apply(old(Shape()), G.Pop)
      ensures copied == old(copied) + G.Cost(old(Shape()), G.Pop)
    {
      if size == 0 {
        return Nil;
      }
      r := buffer[head];
      if size == 1 {
        size := 0;
        return;
      }
      Advance();
      Shrink();
    }

    /** The second half of PopHead before it may shrink: step over the head. */
    method Advance()
      requires Ring() && 1 < size
      modifies this
      ensures Ring() && size == old(size) - 1 && buffer == old(buffer) && copied == old(copied)
      ensures Contents() == old(Contents())[1..] && old(Contents()[0]) == buffer[old(head)]
    {
      WindowPop(buffer[..], head, size);
      head := Next(head, buffer.Length);
      size := size - 1;
      assert Window(buffer[..], head, size) == old(Contents())[1..];
    }

    method EnsureCapacity(newCap: nat)
      requires Ring() && 0 < size && newCap == size + 1 && G.INIT_CAP <= buffer.Length
      modifies this
      ensures Ring() && (buffer == old(buffer) || fresh(buffer)) && size == old(size)
      ensures Contents() == old(Contents())
      ensures buffer.Length == if newCap > old(buffer.Length) then G.Grown(old(buffer.Length)) else old(buffer.Length)
      ensures copied == old(copied) + G.Cost(old(Shape()), G.Push)
    {
      if newCap > buffer.Length {
        Expand(newCap);
      }
    }

    method Expand(minCap: nat)
      requires Ring() && 0 < size && minCap == buffer.Length + 1
      modifies this
      ensures Ring() && fresh(buffer) && size == old(size)
      ensures Contents() == old(Contents())
      ensures buffer.Length == G.Grown(old(buffer.Length)) && copied == old(copied) + size
    {
      var n := buffer.Length;
      UncheckedRealloc(Max(minCap, Max(n + 5, n * 3 / 2)));
    }

    method Shrink()
      requires Ring() && 0 < size && G.Dense(G.Geometry(size + 1, buffer.Length))
      modifies this
      ensures Ring() && (buffer == old(buffer) || fresh(buffer)) && size == old(size)
      ensures Contents() == old(Contents())
      ensures G.Shrinks(size, old(buffer.Length)) ==>
                buffer.Length == G.Shrunk(old(buffer.Length)) && copied == old(copied) + size
      ensures !G.Shrinks(size, old(buffer.Length)) ==> buffer == old(buffer) && copied == old(copied)
    {
      var n := buffer.Length;
      if n <= G.INIT_CAP {
        return;
      }
      if size > n / 2 {
        return;
      }
      UncheckedRealloc(Max(G.INIT_CAP, n * 7 / 10));
    }

    /** Moves the window to the front of a new array, in one piece or, if it wraps, in two. */
    method UncheckedRealloc(newCap: nat)
      requires Ring() && 0 < size <= newCap
      modifies this
      ensures Ring() && fresh(buffer) && buffer.Length == newCap && head == 0 && size == old(size)
      ensures Contents() == old(Contents()) && copied == old(copied) + size
    {
      var slots := CopyWindow(newCap);
      copied := copied + size;
      head := 0;
      tail := size - 1;
      buffer := slots;
    }

    method CopyWindow(newCap: nat) returns (slots: array<Slice>)
      requires Ring() && 0 < size <= newCap
      ensures fresh(slots) && slots.Length == newCap
      ensures Window(slots[..], 0, size) == Contents()
    {
      slots := new Slice[newCap](_ => Nil);
      if tail >= head {
        forall i | 0 <= i < size {
          slots[i] := buffer[head + i];
        }
      } else {
        var idx := buffer.Length - head;
        forall i | 0 <= i < idx {
          slots[i] := buffer[head + i];
        }
        forall i | 0 <= i <= tail {
          slots[idx + i] := buffer[i];
        }
      }
    }
  }
}
