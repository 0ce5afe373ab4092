/**
 Two-wire bus traces as a bit-banging master drives them, the conditions a listener sees
 on them (NXP UM10204 sections 3.1.3 to 3.1.6) and the byte level they encode.
 */
module I2cBus {
  import opened Bits

  type byte = b: int | 0 <= b < 256

  /** One pin operation: set SCL, drive SDA to a level, turn SDA to input or back to output, sample SDA. */
  datatype Act = Scl(high: bool) | Sda(high: bool) | Release | Drive | Sample(level: bool)

  datatype Pins = Pins(scl: bool, latch: bool, output: bool)

  datatype Level = Low | High | Released

  /** How the master holds SDA. */
  function Held(p: Pins): Level {
    if !p.output then Released else if p.latch then High else Low
  }

  function Apply(p: Pins, a: Act): Pins {
    match a
    case Scl(h) => p.(scl := h)
    case Sda(h) => p.(latch := h, output := true)
    case Release => p.(output := false)
    case Drive => p.(output := true)
    case Sample(_) => p
  }

  function After(p: Pins, t: seq<Act>): Pins
    decreases |t|
  {
    if t == [] then p else After(Apply(p, t[0]), t[1..])
  }

  /** A change of the master's hold on SDA while SCL is high. */
  datatype Change = Change(from: Level, to: Level)

  function Changes(p: Pins, t: seq<Act>): seq<Change>
    decreases |t|
  {
    if t == [] then []
    else
      var q := Apply(p, t[0]);
      (if p.scl && q.scl && Held(p) != Held(q) then [Change(Held(p), Held(q))] else []) + Changes(q, t[1..])
  }

  /** SDA as held at each rising edge of SCL: what a listener clocks in. */
  function Clocked(p: Pins, t: seq<Act>): seq<Level>
    decreases |t|
  {
    if t == [] then []
    else
      var q := Apply(p, t[0]);
      (if !p.scl && q.scl then [Held(q)] else []) + Clocked(q, t[1..])
  }

  lemma {:induction false} Splits(p: Pins, s: seq<Act>, t: seq<Act>)
    ensures After(p, s + t) == After(After(p, s), t)
    ensures Changes(p, s + t) == Changes(p, s) + Changes(After(p, s), t)
    ensures Clocked(p, s + t) == Clocked(p, s) + Clocked(After(p, s), t)
    decreases |s|
  {
    if s == [] {
      assert s + t == t;
    } else {
      assert (s + t)[1..] == s[1..] + t;
      Splits(Apply(p, s[0]), s[1..], t);
    }
  }

  // ---------- traces of the driver's routines ----------

  const START: seq<Act> := [Sda(true), Scl(true), Sda(false), Scl(false)]
  const STOP: seq<Act> := [Sda(false), Scl(true), Sda(true)]

  function SendBit(b: bool): seq<Act> {
    [Sda(b), Scl(true), Scl(false)]
  }

  function SendBits(bits: seq<bool>): seq<Act> {
    if bits == [] then [] else SendBits(bits[..|bits| - 1]) + SendBit(bits[|bits| - 1])
  }

  function AckSlot(level: bool): seq<Act> {
    [Release, Scl(false), Scl(true), Sample(level), Scl(false), Drive, Sda(false)]
  }

  function GetBit(level: bool): seq<Act> {
    [Scl(true), Sample(level), Scl(false)]
  }

  function GetBits(bits: seq<bool>): seq<Act> {
    if bits == [] then [] else GetBits(bits[..|bits| - 1]) + GetBit(bits[|bits| - 1])
  }

  /** The bits of a byte, most significant first. */
  function BitsOf(b: byte): (r: seq<bool>)
    ensures |r| == 8
  {
    seq(8, i requires 0 <= i < 8 => Bit(b, 7 - i))
  }

  /** The number a most-significant-first bit string denotes. */
  function ValueOf(bits: seq<bool>): nat {
    if bits == [] then 0 else 2 * ValueOf(bits[..|bits| - 1]) + if bits[|bits| - 1] then 1 else 0
  }

  /** A byte sent, the slave answering `nack` (SDA high) or not in the ninth slot. */
  function TxActs(b: byte, nack: bool): seq<Act> {
    [Scl(false)] + SendBits(BitsOf(b)) + AckSlot(nack)
  }

  /** A byte received and acknowledged or not. */
  function RxActs(bits: seq<bool>, ack: bool): seq<Act> {
    [Release] + GetBits(bits) + [Drive, Sda(!ack), Scl(true), Scl(false)]
  }

  // ---------- one routine at a time ----------

  function HeldAs(b: bool): Level {
    if b then High else Low
  }

  function Levels(bits: seq<bool>): seq<Level> {
    seq(|bits|, i requires 0 <= i < |bits| => HeldAs(bits[i]))
  }

  function Floating(n: nat): seq<Level> {
    seq(n, _ => Released)
  }

  lemma {:induction false} SendBitsOnBus(p: Pins, bits: seq<bool>)
    requires !p.scl
    ensures Changes(p, SendBits(bits)) == []
    ensures Clocked(p, SendBits(bits)) == Levels(bits)
    ensures !After(p, SendBits(bits)).scl
    decreases |bits|
  {
    if bits != [] {
      var init, last := bits[..|bits| - 1], bits[|bits| - 1];
      SendBitsOnBus(p, init);
      var q := After(p, SendBits(init));
      Splits(p, SendBits(init), SendBit(last));
      SendBitOnBus(q, last);
      assert Levels(bits) == Levels(init) + [HeldAs(last)];
    }
  }

  lemma Unfold1(p: Pins, a: Act, t: seq<Act>)
    ensures After(p, [a] + t) == After(Apply(p, a), t)
    ensures Changes(p, [a] + t) == Changes(p, [a]) + Changes(Apply(p, a), t)
    ensures Clocked(p, [a] + t) == Clocked(p, [a]) + Clocked(Apply(p, a), t)
  {
    Splits(p, [a], t);
  }

  lemma SendBitOnBus(p: Pins, b: bool)
    requires !p.scl
    ensures Changes(p, SendBit(b)) == [] && Clocked(p, SendBit(b)) == [HeldAs(b)] && !After(p, SendBit(b)).scl
  {
    var t := SendBit(b);
    assert t[1..] == [Scl(true), Scl(false)] && t[1..][1..] == [Scl(false)] && t[1..][1..][1..] == [];
  }

  lemma GetBitOnBus(p: Pins, level: bool)
    requires !p.scl && !p.output
    ensures Changes(p, GetBit(level)) == [] && Clocked(p, GetBit(level)) == [Released]
    ensures After(p, GetBit(level)) == p
  {
    var t := GetBit(level);
    assert t[1..] == [Sample(level), Scl(false)] && t[1..][1..] == [Scl(false)] && t[1..][1..][1..] == [];
  }

  lemma {:induction false} GetBitsOnBus(p: Pins, bits: seq<bool>)
    requires !p.scl && !p.output
    ensures Changes(p, GetBits(bits)) == []
    ensures Clocked(p, GetBits(bits)) == Floating(|bits|)
    ensures After(p, GetBits(bits)) == p
    decreases |bits|
  {
    if bits != [] {
      var init, last := bits[..|bits| - 1], bits[|bits| - 1];
      GetBitsOnBus(p, init);
      Splits(p, GetBits(init), GetBit(last));
      GetBitOnBus(p, last);
    }
  }

  /** A clock pulse with SDA released, the master sampling it. */
  lemma SampledClock(p: Pins, level: bool)
    requires !p.scl && !p.output
    ensures var t := [Scl(true), Sample(level), Scl(false)];
      Changes(p, t) == [] && Clocked(p, t) == [Released] && After(p, t) == p
  {
    GetBitOnBus(p, level);
  }

  lemma Turnaround(p: Pins)
    requires !p.scl
    ensures var t := [Release, Scl(false)];
      Changes(p, t) == [] && Clocked(p, t) == [] && After(p, t) == p.(output := false)
    ensures var t := [Drive, Sda(false)];
      Changes(p, t) == [] && Clocked(p, t) == [] && After(p, t) == Pins(false, false, true)
  {
    assert [Release, Scl(false)][1..] == [Scl(false)] && [Scl(false)][1..] == [];
    assert [Drive, Sda(false)][1..] == [Sda(false)] && [Sda(false)][1..] == [];
  }

  lemma AckSlotOnBus(p: Pins, nack: bool)
    requires !p.scl
    ensures Changes(p, AckSlot(nack)) == [] && Clocked(p, AckSlot(nack)) == [Released]
    ensures After(p, AckSlot(nack)) == Pins(false, false, true)
  {
    var clock, end := [Scl(true), Sample(nack), Scl(false)], [Drive, Sda(false)];
    assert AckSlot(nack) == [Release, Scl(false)] + (clock + end);
    var q := p.(output := false);
    Turnaround(p);
    SampledClock(q, nack);
    Turnaround(q);
    hide After, Changes, Clocked;
    Splits(p, [Release, Scl(false)], clock + end);
    Splits(q, clock, end);
  }

  /** A byte sent with SCL low: SDA is only changed while SCL is low; 8 data bits, then SDA is let go. */
  lemma TxOnBus(p: Pins, b: byte, nack: bool)
    requires !p.scl
    ensures Changes(p, TxActs(b, nack)) == []
    ensures Clocked(p, TxActs(b, nack)) == Levels(BitsOf(b)) + [Released]
    ensures After(p, TxActs(b, nack)) == Pins(false, false, true)
  {
    var body := SendBits(BitsOf(b)) + AckSlot(nack);
    assert TxActs(b, nack) == [Scl(false)] + body;
    Unfold1(p, Scl(false), body);
    assert Apply(p, Scl(false)) == p && Changes(p, [Scl(false)]) == [] && Clocked(p, [Scl(false)]) == [];
    Splits(p, SendBits(BitsOf(b)), AckSlot(nack));
    SendBitsOnBus(p, BitsOf(b));
    AckSlotOnBus(After(p, SendBits(BitsOf(b))), nack);
  }

  lemma AckBitOnBus(p: Pins, ack: bool)
    requires !p.scl
    ensures var t := [Drive, Sda(!ack), Scl(true), Scl(false)];
      Changes(p, t) == [] && Clocked(p, t) == [HeldAs(!ack)] && After(p, t) == Pins(false, !ack, true)
  {
    var t := [Drive, Sda(!ack), Scl(true), Scl(false)];
    Unfold1(p, Drive, [Sda(!ack), Scl(true), Scl(false)]);
    assert [Drive] + [Sda(!ack), Scl(true), Scl(false)] == t;
    SendBitOnBus(Apply(p, Drive), !ack);
    assert t[1..] == [Sda(!ack), Scl(true), Scl(false)] && t[1..][1..] == [Scl(true), Scl(false)];
    assert t[1..][1..][1..] == [Scl(false)] && t[1..][1..][1..][1..] == [];
  }

  /** A byte received with SCL low: SDA floats for 8 bits, then the master answers. */
  lemma RxOnBus(p: Pins, bits: seq<bool>, ack: bool)
    requires !p.scl
    ensures Changes(p, RxActs(bits, ack)) == []
    ensures Clocked(p, RxActs(bits, ack)) == Floating(|bits|) + [HeldAs(!ack)]
    ensures After(p, RxActs(bits, ack)) == Pins(false, !ack, true)
  {
    var tail := [Drive, Sda(!ack), Scl(true), Scl(false)];
    var q := Apply(p, Release);
    assert RxActs(bits, ack) == [Release] + (GetBits(bits) + tail);
    Unfold1(p, Release, GetBits(bits) + tail);
    assert Changes(p, [Release]) == [] && Clocked(p, [Release]) == [];
    Splits(q, GetBits(bits), tail);
    GetBitsOnBus(q, bits);
    AckBitOnBus(q, ack);
  }

  /** START from an idle bus or, repeated, from SCL low: exactly one falling edge under high SCL. */
  lemma StartOnBus(p: Pins)
    requires !p.scl || (p.output && p.latch)
    ensures Changes(p, START) == [Change(High, Low)]
    ensures After(p, START) == Pins(false, false, true)
  {
    var t := START;
    assert t[1..] == [Scl(true), Sda(false), Scl(false)] && t[1..][1..] == [Sda(false), Scl(false)];
    assert t[1..][1..][1..] == [Scl(false)] && t[1..][1..][1..][1..] == [];
  }

  /** STOP from SCL low: exactly one rising edge under high SCL, leaving the bus idle. */
  lemma StopOnBus(p: Pins)
    requires !p.scl
    ensures Changes(p, STOP) == [Change(Low, High)]
    ensures After(p, STOP) == Pins(true, true, true)
  {
    var t := STOP;
    assert t[1..] == [Scl(true), Sda(true)] && t[1..][1..] == [Sda(true)] && t[1..][1..][1..] == [];
  }

  // ---------- whole transactions ----------

  datatype Op = Tx(b: byte, nack: bool) | Rx(bits: seq<bool>, ack: bool) | Restart

  function OpActs(op: Op): seq<Act> {
    match op
    case Tx(b, nack) => TxActs(b, nack)
    case Rx(bits, ack) => RxActs(bits, ack)
    case Restart => START
  }

  function OpsActs(ops: seq<Op>): seq<Act> {
    if ops == [] then [] else OpActs(ops[0]) + OpsActs(ops[1..])
  }

  function Restarts(ops: seq<Op>): nat {
    if ops == [] then 0 else (if ops[0].Restart? then 1 else 0) + Restarts(ops[1..])
  }

  function Falls(n: nat): seq<Change> {
    seq(n, _ => Change(High, Low))
  }

  lemma {:induction false} OpsOnBus(p: Pins, ops: seq<Op>)
    requires !p.scl
    ensures Changes(p, OpsActs(ops)) == Falls(Restarts(ops))
    ensures !After(p, OpsActs(ops)).scl
    decreases |ops|
  {
    if ops != [] {
      Splits(p, OpActs(ops[0]), OpsActs(ops[1..]));
      match ops[0] {
        case Tx(b, nack) => TxOnBus(p, b, nack);
        case Rx(bits, ack) => RxOnBus(p, bits, ack);
        case Restart => StartOnBus(p);
      }
      OpsOnBus(After(p, OpActs(ops[0])), ops[1..]);
    }
  }

  /**
   MAIN: in start, (bytes and repeated starts), stop, SDA moves under high SCL once per start, falling,
   and once for the stop, rising; never inside a byte or an acknowledge slot; SCL is low between bytes.
   */
  lemma TransactionConditions(p: Pins, ops: seq<Op>)
    requires !p.scl || (p.output && p.latch)
    ensures Changes(p, START + OpsActs(ops) + STOP) == Falls(1 + Restarts(ops)) + [Change(Low, High)]
    ensures !After(p, START + OpsActs(ops)).scl
    ensures After(p, START + OpsActs(ops) + STOP) == Pins(true, true, true)
  {
    StartOnBus(p);
    var q := After(p, START);
    OpsOnBus(q, ops);
    StopOnBus(After(q, OpsActs(ops)));
    hide After, Changes, OpsActs, Restarts;
    assert Falls(1 + Restarts(ops)) == [Change(High, Low)] + Falls(Restarts(ops));
    Splits(p, START, OpsActs(ops));
    Splits(p, START + OpsActs(ops), STOP);
  }

  // ---------- bytes ----------

  lemma {:induction false} ValueOfPrefix(b: byte, k: nat)
    requires k <= 8
    ensures ValueOf(BitsOf(b)[..k]) == b / Pow2(8 - k)
    decreases k
  {
    if k == 0 {
      assert Pow2(8) == 256;
    } else {
      ValueOfPrefix(b, k - 1);
      var s := BitsOf(b)[..k];
      assert s[..k - 1] == BitsOf(b)[..k - 1];
      HalfOf(b, 8 - k);
    }
  }

  lemma HalfOf(b: nat, k: nat)
    ensures b / Pow2(k) == 2 * (b / Pow2(k + 1)) + b / Pow2(k) % 2
  {
    var p := Pow2(k);
    var q := b / p;
    var h, r, rest := q / 2, q % 2, b % p;
    assert b == q * p + rest;
    Distribute(h, r, p);
    assert r * p + rest < 2 * p by {
      if r == 0 {
        assert r * p == 0;
      } else {
        assert r * p == p;
      }
    }
    ModUnique(b, h, r * p + rest, 2 * p);
  }

  lemma Distribute(h: nat, r: nat, p: nat)
    ensures (2 * h + r) * p == h * (2 * p) + r * p
  {
  }

  /** Reading a byte's bits back, most significant first, gives the byte. */
  lemma BitsRoundTrip(b: byte)
    ensures ValueOf(BitsOf(b)) == b
  {
    ValueOfPrefix(b, 8);
    assert BitsOf(b)[..8] == BitsOf(b);
  }

  lemma {:induction false} ValueBound(bits: seq<bool>)
    ensures ValueOf(bits) < Pow2(|bits|)
    decreases |bits|
  {
    if bits != [] {
      ValueBound(bits[..|bits| - 1]);
    }
  }

  // ---------- buffers ----------

  /** Bytes a buffer write sends: up to and including the first one not acknowledged. */
  function Sent(data: seq<byte>, nacks: seq<bool>): nat
    requires |nacks| >= |data|
  {
    if data == [] then 0 else if nacks[0] then 1 else 1 + Sent(data[1..], nacks[1..])
  }

  function WriteActs(data: seq<byte>, nacks: seq<bool>): seq<Act>
    requires |nacks| >= |data|
  {
    if data == [] then [] else TxActs(data[0], nacks[0]) + if nacks[0] then [] else WriteActs(data[1..], nacks[1..])
  }

  /** A listener's view: groups of nine clocks, eight data bits and one slot. */
  function Heard(levels: seq<Level>): seq<nat> {
    if |levels| < 9 then []
    else [ValueOf(seq(8, i requires 0 <= i < 8 => levels[i] == High))] + Heard(levels[9..])
  }

  /** Every ninth clock is left to the slave. */
  predicate SlotsFree(levels: seq<Level>) {
    if |levels| < 9 then levels == [] else levels[8] == Released && SlotsFree(levels[9..])
  }

  lemma HeardByte(b: byte, rest: seq<Level>)
    ensures var l := Levels(BitsOf(b)) + [Released] + rest;
      Heard(l) == [b] + Heard(rest) && SlotsFree(l) == SlotsFree(rest)
  {
    var l := Levels(BitsOf(b)) + [Released] + rest;
    assert l[9..] == rest;
    assert (seq(8, i requires 0 <= i < 8 => l[i] == High)) == BitsOf(b);
    BitsRoundTrip(b);
  }

  /** MAIN: sampling SDA at every SCL rise of a buffer write recovers the bytes sent, one free slot after each. */
  lemma {:induction false} WriteRoundTrip(p: Pins, data: seq<byte>, nacks: seq<bool>)
    requires !p.scl && |nacks| >= |data|
    ensures Sent(data, nacks) <= |data|
    ensures Heard(Clocked(p, WriteActs(data, nacks))) == data[..Sent(data, nacks)]
    ensures SlotsFree(Clocked(p, WriteActs(data, nacks)))
    decreases |data|
  {
    if data == [] {
    } else {
      TxOnBus(p, data[0], nacks[0]);
      var q := After(p, TxActs(data[0], nacks[0]));
      var rest := if nacks[0] then [] else WriteActs(data[1..], nacks[1..]);
      Splits(p, TxActs(data[0], nacks[0]), rest);
      HeardByte(data[0], Clocked(q, rest));
      if !nacks[0] {
        WriteRoundTrip(q, data[1..], nacks[1..]);
        assert data[..Sent(data, nacks)] == [data[0]] + data[1..][..Sent(data[1..], nacks[1..])];
      } else {
        assert data[..1] == [data[0]];
      }
    }
  }

  /** A buffer read: every byte but the last is acknowledged. */
  function ReadActs(frames: seq<seq<bool>>): seq<Act> {
    if frames == [] then [] else RxActs(frames[0], |frames| > 1) + ReadActs(frames[1..])
  }

  /** Answers the slave clocks in during a read: low for every byte but the last. */
  function Answers(n: nat): seq<Level> {
    if n == 0 then [] else Floating(8) + [if n > 1 then Low else High] + Answers(n - 1)
  }

  lemma {:induction false} ReadAnswers(p: Pins, frames: seq<seq<bool>>)
    requires !p.scl && forall f :: f in frames ==> |f| == 8
    ensures Clocked(p, ReadActs(frames)) == Answers(|frames|)
    ensures Changes(p, ReadActs(frames)) == [] && !After(p, ReadActs(frames)).scl
    decreases |frames|
  {
    if frames != [] {
      RxOnBus(p, frames[0], |frames| > 1);
      Splits(p, RxActs(frames[0], |frames| > 1), ReadActs(frames[1..]));
      ReadAnswers(After(p, RxActs(frames[0], |frames| > 1)), frames[1..]);
    }
  }

  // ---------- buffers as transactions ----------

  /** The bytes of a buffer write, up to the refused one. */
  function WriteOps(data: seq<byte>, nacks: seq<bool>): seq<Op>
    requires |nacks| >= |data|
  {
    if data == [] then []
    else [Tx(data[0], nacks[0])] + if nacks[0] then [] else WriteOps(data[1..], nacks[1..])
  }

  function ReadOps(frames: seq<seq<bool>>): seq<Op> {
    if frames == [] then [] else [Rx(frames[0], |frames| > 1)] + ReadOps(frames[1..])
  }

  lemma {:induction false} WriteIsOps(data: seq<byte>, nacks: seq<bool>)
    requires |nacks| >= |data|
    ensures WriteActs(data, nacks) == OpsActs(WriteOps(data, nacks)) && Restarts(WriteOps(data, nacks)) == 0
    decreases |data|
  {
    if data != [] {
      var rest := if nacks[0] then [] else WriteOps(data[1..], nacks[1..]);
      if !nacks[0] {
        WriteIsOps(data[1..], nacks[1..]);
      }
      hide TxActs;
      FirstOp(Tx(data[0], nacks[0]), rest);
    }
  }

  lemma {:induction false} ReadIsOps(frames: seq<seq<bool>>)
    ensures ReadActs(frames) == OpsActs(ReadOps(frames)) && Restarts(ReadOps(frames)) == 0
    decreases |frames|
  {
    if frames != [] {
      ReadIsOps(frames[1..]);
      hide RxActs;
      FirstOp(Rx(frames[0], |frames| > 1), ReadOps(frames[1..]));
    }
  }

  lemma FirstOp(op: Op, rest: seq<Op>)
    ensures OpsActs([op] + rest) == OpActs(op) + OpsActs(rest)
    ensures Restarts([op] + rest) == Restarts(rest) + if op.Restart? then 1 else 0
  {
    assert ([op] + rest)[1..] == rest;
  }

  lemma {:induction false} OpsJoin(ops: seq<Op>, more: seq<Op>)
    ensures OpsActs(ops + more) == OpsActs(ops) + OpsActs(more)
    ensures Restarts(ops + more) == Restarts(ops) + Restarts(more)
    decreases |ops|
  {
    hide OpActs;
    if ops == [] {
      assert ops + more == more;
    } else {
      assert (ops + more)[1..] == ops[1..] + more;
      OpsJoin(ops[1..], more);
    }
  }

  /** Start, a buffer write, stop: the conditions, and what a listener gets. */
  lemma BufferWrite(p: Pins, data: seq<byte>, nacks: seq<bool>)
    requires (!p.scl || (p.output && p.latch)) && |nacks| >= |data|
    ensures Sent(data, nacks) <= |data|
    ensures var t := START + WriteActs(data, nacks) + STOP;
      && Changes(p, t) == [Change(High, Low), Change(Low, High)]
      && After(p, t) == Pins(true, true, true)
    ensures Heard(Clocked(After(p, START), WriteActs(data, nacks))) == data[..Sent(data, nacks)]
  {
    WriteIsOps(data, nacks);
    StartOnBus(p);
    WriteRoundTrip(After(p, START), data, nacks);
    hide OpsActs, Restarts, WriteActs, WriteOps;
    TransactionConditions(p, WriteOps(data, nacks));
  }
}
