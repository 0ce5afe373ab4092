/** When the master looks at SDA, and what a slave that keeps to the bus rules has there (NXP UM10204 section 3.1.3). */
module I2cSampling {
  import opened I2cBus

  /** Every sample is taken with SCL high and SDA let go. */
  predicate SamplesHigh(p: Pins, t: seq<Act>)
    decreases |t|
  {
    t != [] ==> (t[0].Sample? ==> p.scl && !p.output) && SamplesHigh(Apply(p, t[0]), t[1..])
  }

  lemma {:induction false} HighJoins(p: Pins, s: seq<Act>, t: seq<Act>)
    ensures SamplesHigh(p, s + t) <==> SamplesHigh(p, s) && SamplesHigh(After(p, s), t)
    decreases |s|
  {
    if s == [] {
      assert s + t == t;
    } else {
      assert (s + t)[1..] == s[1..] + t;
      HighJoins(Apply(p, s[0]), s[1..], t);
    }
  }

  lemma {:induction false} HighAt(p: Pins, t: seq<Act>, i: nat)
    requires SamplesHigh(p, t) && i < |t| && t[i].Sample?
    ensures After(p, t[..i]).scl && !After(p, t[..i]).output
    decreases i
  {
    if i > 0 {
      HighAt(Apply(p, t[0]), t[1..], i - 1);
      assert t[..i][1..] == t[1..][..i - 1];
    }
  }

  predicate NoSamples(t: seq<Act>) {
    forall a :: a in t ==> !a.Sample?
  }

  lemma {:induction false} NoneHigh(p: Pins, t: seq<Act>)
    requires NoSamples(t)
    ensures SamplesHigh(p, t)
    decreases |t|
  {
    if t != [] {
      assert t[0] in t && forall a :: a in t[1..] ==> a in t;
      NoneHigh(Apply(p, t[0]), t[1..]);
    }
  }

  lemma {:induction false} SendsNoSamples(bits: seq<bool>)
    ensures NoSamples(SendBits(bits))
    decreases |bits|
  {
    if bits != [] {
      SendsNoSamples(bits[..|bits| - 1]);
    }
  }

  lemma PulseHigh(p: Pins, level: bool)
    requires !p.scl && !p.output
    ensures SamplesHigh(p, GetBit(level))
  {
    var t := GetBit(level);
    assert t[1..] == [Sample(level), Scl(false)] && t[1..][1..] == [Scl(false)] && t[1..][1..][1..] == [];
  }

  lemma {:induction false} BitsHigh(p: Pins, bits: seq<bool>)
    requires !p.scl && !p.output
    ensures SamplesHigh(p, GetBits(bits))
    decreases |bits|
  {
    if bits != [] {
      var init, last := bits[..|bits| - 1], bits[|bits| - 1];
      BitsHigh(p, init);
      GetBitsOnBus(p, init);
      PulseHigh(p, last);
      HighJoins(p, GetBits(init), GetBit(last));
    }
  }

  lemma SlotHigh(p: Pins, nack: bool)
    requires !p.scl
    ensures SamplesHigh(p, AckSlot(nack))
  {
    var pulse, end := [Scl(true), Sample(nack), Scl(false)], [Drive, Sda(false)];
    var q := p.(output := false);
    assert AckSlot(nack) == [Release, Scl(false)] + (pulse + end);
    Turnaround(p);
    NoneHigh(p, [Release, Scl(false)]);
    PulseHigh(q, nack);
    GetBitOnBus(q, nack);
    NoneHigh(q, end);
    hide After, SamplesHigh;
    HighJoins(p, [Release, Scl(false)], pulse + end);
    HighJoins(q, pulse, end);
  }

  lemma TxHigh(p: Pins, b: byte, nack: bool)
    requires !p.scl
    ensures SamplesHigh(p, TxActs(b, nack))
  {
    var head := [Scl(false)] + SendBits(BitsOf(b));
    SendsNoSamples(BitsOf(b));
    NoneHigh(p, head);
    SendBitsOnBus(p, BitsOf(b));
    Unfold1(p, Scl(false), SendBits(BitsOf(b)));
    assert Apply(p, Scl(false)) == p;
    hide After, SamplesHigh, SendBits;
    SlotHigh(After(p, head), nack);
    HighJoins(p, head, AckSlot(nack));
  }

  lemma RxHigh(p: Pins, bits: seq<bool>, ack: bool)
    requires !p.scl
    ensures SamplesHigh(p, RxActs(bits, ack))
  {
    var tail := [Drive, Sda(!ack), Scl(true), Scl(false)];
    var q := Apply(p, Release);
    assert RxActs(bits, ack) == [Release] + (GetBits(bits) + tail);
    assert ([Release] + (GetBits(bits) + tail))[1..] == GetBits(bits) + tail;
    BitsHigh(q, bits);
    GetBitsOnBus(q, bits);
    NoneHigh(q, tail);
    HighJoins(q, GetBits(bits), tail);
  }

  lemma {:induction false} OpsHigh(p: Pins, ops: seq<Op>)
    requires !p.scl
    ensures SamplesHigh(p, OpsActs(ops))
    decreases |ops|
  {
    if ops != [] {
      var q := After(p, OpActs(ops[0]));
      match ops[0] {
        case Tx(b, nack) => TxHigh(p, b, nack); TxOnBus(p, b, nack);
        case Rx(bits, ack) => RxHigh(p, bits, ack); RxOnBus(p, bits, ack);
        case Restart => NoneHigh(p, START); StartOnBus(p);
      }
      OpsHigh(q, ops[1..]);
      HighJoins(p, OpActs(ops[0]), OpsActs(ops[1..]));
    }
  }

  /** MAIN: in a whole transaction, whatever bytes and repeated starts, SDA is only looked at with SCL high and let go. */
  lemma TransactionSamples(p: Pins, ops: seq<Op>, i: nat)
    requires !p.scl || (p.output && p.latch)
    requires var t := START + OpsActs(ops) + STOP; i < |t| && t[i].Sample?
    ensures var q := After(p, (START + OpsActs(ops) + STOP)[..i]); q.scl && !q.output
  {
    var t := START + OpsActs(ops) + STOP;
    StartOnBus(p);
    NoneHigh(p, START);
    OpsHigh(After(p, START), ops);
    HighJoins(p, START, OpsActs(ops));
    NoneHigh(After(p, START + OpsActs(ops)), STOP);
    HighJoins(p, START + OpsActs(ops), STOP);
    HighAt(p, t, i);
  }

  // ---------- the slave's side ----------

  /**
   `line` is the level of SDA before each pin action and after the last: the master's samples are of it, and it
   only changes with SCL low.
   */
  predicate Steady(p: Pins, t: seq<Act>, line: seq<bool>)
    decreases |t|
  {
    && |line| == |t| + 1
    && (t != [] ==>
          && (t[0].Sample? ==> t[0].level == line[0])
          && (p.scl && Apply(p, t[0]).scl ==> line[1] == line[0])
          && Steady(Apply(p, t[0]), t[1..], line[1..]))
  }

  /** The levels at the rising edges of SCL. */
  function AtRises(p: Pins, t: seq<Act>, line: seq<bool>): seq<bool>
    requires |line| == |t| + 1
    decreases |t|
  {
    if t == [] then []
    else (if !p.scl && Apply(p, t[0]).scl then [line[1]] else []) + AtRises(Apply(p, t[0]), t[1..], line[1..])
  }

  lemma Slices(line: seq<bool>, n: nat)
    requires 0 < n < |line|
    ensures line[..n + 1][1..] == line[1..][..n] && line[1..][n - 1..] == line[n..]
  {
  }

  lemma {:induction false} RisesSplit(p: Pins, s: seq<Act>, t: seq<Act>, line: seq<bool>)
    requires |line| == |s + t| + 1
    ensures AtRises(p, s + t, line) == AtRises(p, s, line[..|s| + 1]) + AtRises(After(p, s), t, line[|s|..])
    decreases |s|
  {
    if s == [] {
      assert s + t == t && line[0..] == line;
    } else {
      assert (s + t)[1..] == s[1..] + t;
      Slices(line, |s|);
      RisesSplit(Apply(p, s[0]), s[1..], t, line[1..]);
    }
  }

  lemma {:induction false} SteadySplit(p: Pins, s: seq<Act>, t: seq<Act>, line: seq<bool>)
    requires Steady(p, s + t, line)
    ensures Steady(p, s, line[..|s| + 1]) && Steady(After(p, s), t, line[|s|..])
    decreases |s|
  {
    if s == [] {
      assert s + t == t && line[0..] == line;
    } else {
      assert (s + t)[1..] == s[1..] + t;
      Slices(line, |s|);
      SteadySplit(Apply(p, s[0]), s[1..], t, line[1..]);
    }
  }

  lemma SteadySplits(p: Pins, s: seq<Act>, t: seq<Act>, line: seq<bool>)
    requires Steady(p, s + t, line)
    ensures Steady(p, s, line[..|s| + 1]) && Steady(After(p, s), t, line[|s|..])
    ensures AtRises(p, s + t, line) == AtRises(p, s, line[..|s| + 1]) + AtRises(After(p, s), t, line[|s|..])
  {
    assert |line| == |s + t| + 1;
    hide Steady, AtRises, After;
    SteadySplit(p, s, t, line);
    RisesSplit(p, s, t, line);
  }

  lemma PulseReads(p: Pins, level: bool, line: seq<bool>)
    requires !p.scl && Steady(p, GetBit(level), line)
    ensures AtRises(p, GetBit(level), line) == [level]
  {
    var t := GetBit(level);
    assert t[1..] == [Sample(level), Scl(false)] && t[1..][1..] == [Scl(false)] && t[1..][1..][1..] == [];
  }

  lemma {:induction false} BitsRead(p: Pins, bits: seq<bool>, line: seq<bool>)
    requires !p.scl && !p.output && Steady(p, GetBits(bits), line)
    ensures AtRises(p, GetBits(bits), line) == bits
    decreases |bits|
  {
    if bits != [] {
      var init, last := bits[..|bits| - 1], bits[|bits| - 1];
      SteadySplits(p, GetBits(init), GetBit(last), line);
      GetBitsOnBus(p, init);
      BitsRead(p, init, line[..|GetBits(init)| + 1]);
      PulseReads(p, last, line[|GetBits(init)|..]);
    }
  }

  /** MAIN: what the master makes of a byte is what the slave holds at the rising edges, the answer bit excepted. */
  lemma RxReadsHeld(p: Pins, bits: seq<bool>, ack: bool, line: seq<bool>)
    requires !p.scl && Steady(p, RxActs(bits, ack), line)
    ensures |AtRises(p, RxActs(bits, ack), line)| == |bits| + 1
    ensures AtRises(p, RxActs(bits, ack), line)[..|bits|] == bits
  {
    var tail := [Drive, Sda(!ack), Scl(true), Scl(false)];
    var q := Apply(p, Release);
    assert RxActs(bits, ack) == [Release] + (GetBits(bits) + tail);
    SteadySplits(p, [Release], GetBits(bits) + tail, line);
    assert After(p, [Release]) == q && AtRises(p, [Release], line[..2]) == [] by {
      assert [Release][1..] == [];
    }
    hide After, AtRises, Steady;
    var rest := line[1..];
    SteadySplits(q, GetBits(bits), tail, rest);
    GetBitsOnBus(q, bits);
    BitsRead(q, bits, rest[..|GetBits(bits)| + 1]);
    OneRise(q, ack, rest[|GetBits(bits)|..]);
  }

  lemma OneRise(p: Pins, ack: bool, line: seq<bool>)
    requires !p.scl && |line| == 5
    ensures |AtRises(p, [Drive, Sda(!ack), Scl(true), Scl(false)], line)| == 1
  {
    var drive, clock := [Drive, Sda(!ack)], [Scl(true), Scl(false)];
    assert [Drive, Sda(!ack), Scl(true), Scl(false)] == drive + clock;
    assert drive[1..] == [Sda(!ack)] && [Sda(!ack)][1..] == [];
    assert After(p, drive) == After(Apply(p, Drive), [Sda(!ack)]) == After(Apply(Apply(p, Drive), Sda(!ack)), []);
    RisesSplit(p, drive, clock, line);
    NoRise(p, drive, line[..3]);
    ClockRises(After(p, drive), line[2..]);
  }

  lemma ClockRises(p: Pins, line: seq<bool>)
    requires !p.scl && |line| == 3
    ensures AtRises(p, [Scl(true), Scl(false)], line) == [line[1]]
  {
    var clock := [Scl(true), Scl(false)];
    assert clock[1..] == [Scl(false)] && clock[1..][1..] == [];
  }

  /** A clock pulse between two stretches without one. */
  lemma PulseBetween(p: Pins, head: seq<Act>, nack: bool, end: seq<Act>, line: seq<bool>)
    requires !p.scl && !After(p, head).scl && After(After(p, head), GetBit(nack)) == After(p, head)
    requires Steady(p, head + (GetBit(nack) + end), line)
    requires (forall a :: a in head ==> a != Scl(true)) && (forall a :: a in end ==> a != Scl(true))
    ensures AtRises(p, head + (GetBit(nack) + end), line) == [nack]
  {
    var q, rest, pulse := After(p, head), line[|head|..], GetBit(nack);
    hide *;
    SteadySplits(p, head, pulse + end, line);
    SteadyLength(p, head, line[..|head| + 1]);
    NoRise(p, head, line[..|head| + 1]);
    SteadySplits(q, pulse, end, rest);
    PulseReads(q, nack, rest[..|pulse| + 1]);
    SteadyLength(q, end, rest[|pulse|..]);
    NoRise(q, end, rest[|pulse|..]);
  }

  /** The acknowledge is what the slave holds at the ninth rising edge. */
  lemma SlotReadsHeld(p: Pins, nack: bool, line: seq<bool>)
    requires !p.scl && Steady(p, AckSlot(nack), line)
    ensures AtRises(p, AckSlot(nack), line) == [nack]
  {
    assert AckSlot(nack) == [Release, Scl(false)] + (GetBit(nack) + [Drive, Sda(false)]);
    hide After, Changes, Clocked, Steady, AtRises;
    Turnaround(p);
    GetBitOnBus(p.(output := false), nack);
    PulseBetween(p, [Release, Scl(false)], nack, [Drive, Sda(false)], line);
  }

  lemma SteadyLength(p: Pins, t: seq<Act>, line: seq<bool>)
    requires Steady(p, t, line)
    ensures |line| == |t| + 1
  {
  }

  lemma {:induction false} NoRise(p: Pins, t: seq<Act>, line: seq<bool>)
    requires !p.scl && |line| == |t| + 1 && forall a :: a in t ==> a != Scl(true)
    ensures AtRises(p, t, line) == []
    decreases |t|
  {
    if t != [] {
      assert t[0] in t && forall a :: a in t[1..] ==> a in t;
      NoRise(Apply(p, t[0]), t[1..], line[1..]);
    }
  }
}
