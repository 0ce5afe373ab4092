/** The bit-banged I2C master itself: loops over pins, proved to produce the traces of `I2cBus`. */
module SoftIic {
  import opened Bits
  import opened I2cBus
  import I2cSampling

  /** Index of the first true element, or the length. */
  function FirstTrue(s: seq<bool>): (r: nat)
    ensures r <= |s|
    ensures forall i :: 0 <= i < r ==> !s[i]
    ensures r < |s| ==> s[r]
  {
    if s == [] || s[0] then 0
    else
      var r := FirstTrue(s[1..]);
      assert forall i :: 1 <= i < 1 + r ==> s[i] == s[1..][i - 1];
      1 + r
  }

  /** Shifting the byte left and testing its top bit walks the bits from the most significant. */
  lemma TopBitAfterShift(b: byte, i: nat)
    requires i < 8
    ensures b * Pow2(i) / 128 % 2 == 1 <==> Bit(b, 7 - i)
  {
    Pow2Adds(i, 7 - i);
    assert Pow2(i) * Pow2(7 - i) == Pow2(7) == 128;
    Cancelled(b, Pow2(i), Pow2(7 - i));
  }

  lemma Cancelled(x: nat, p: nat, q: nat)
    requires p > 0 && q > 0
    ensures p * q > 0 && x * p / (p * q) == x / q
  {
    var d, r := x / q, x % q;
    assert x * p == d * (p * q) + r * p by {
      assert x == d * q + r;
      assert d * q * p == d * (p * q);
    }
    assert r * p < p * q by {
      assert r <= q - 1;
      assert r * p <= (q - 1) * p;
    }
    ModUnique(x * p, d, r * p, p * q);
  }

  lemma Reassociate(a: seq<Act>, b: seq<Act>, c: seq<Act>)
    ensures a + (b + c) == a + b + c
  {
  }

  lemma WriteActsAt(data: seq<byte>, nacks: seq<bool>, r: nat)
    requires r < |data| == |nacks|
    ensures FirstTrue(nacks[r..]) == if nacks[r] then 0 else 1 + FirstTrue(nacks[r + 1..])
    ensures WriteActs(data[r..], nacks[r..])
         == TxActs(data[r], nacks[r]) + if nacks[r] then [] else WriteActs(data[r + 1..], nacks[r + 1..])
  {
    hide TxActs;
    assert data[r..][1..] == data[r + 1..] && nacks[r..][1..] == nacks[r + 1..];
  }

  lemma ReadActsAt(frames: seq<seq<bool>>, i: nat)
    requires i < |frames|
    ensures frames[i] == frames[i..][0] && frames[i..][1..] == frames[i + 1..]
    ensures ReadActs(frames[i..])
         == RxActs(frames[i], i + 1 < |frames|) + if i + 1 < |frames| then ReadActs(frames[i + 1..]) else []
  {
    hide RxActs;
    assert frames[i..][1..] == frames[i + 1..];
  }

  /** What the slave clocks in from a buffer write, by the value the driver returns. */
  lemma {:induction false} WriteHeard(p: Pins, data: seq<byte>, nacks: seq<bool>)
    requires !p.scl && |data| == |nacks|
    ensures var r := FirstTrue(nacks);
      Heard(Clocked(p, WriteActs(data, nacks))) == if r < |data| then data[..r + 1] else data
  {
    WriteRoundTrip(p, data, nacks);
    SentCount(data, nacks);
  }

  lemma {:induction false} SentCount(data: seq<byte>, nacks: seq<bool>)
    requires |data| == |nacks|
    ensures Sent(data, nacks) == if FirstTrue(nacks) < |data| then FirstTrue(nacks) + 1 else |data|
    decreases |data|
  {
    if data != [] && !nacks[0] {
      SentCount(data[1..], nacks[1..]);
    }
  }

  lemma WriteActsEnd(data: seq<byte>, nacks: seq<bool>)
    requires data == [] && nacks == []
    ensures WriteActs(data, nacks) == [] && FirstTrue(nacks) == 0
  {
  }

  lemma ValueOfNone(bits: seq<bool>)
    ensures ValueOf(bits[..0]) == 0
  {
  }

  lemma ValueStep(bits: seq<bool>, i: nat)
    requires i < 8 <= |bits|
    ensures ValueOf(bits[..i + 1]) == ValueOf(bits[..i]) * 2 % 256 + (if bits[i] then 1 else 0) < 256
  {
    ValueBound(bits[..i + 1]);
    Pow2Grows(i + 1, 8);
    assert Pow2(8) == 256;
    assert bits[..i + 1][..i] == bits[..i];
  }

  /** The first eight levels a slave holds at rising edges, most significant first, are those of `b`. */
  ghost predicate HoldsByte(p: Pins, bits: seq<bool>, ack: bool, line: seq<bool>, b: nat)
    requires |line| == |RxActs(bits, ack)| + 1
  {
    var held := I2cSampling.AtRises(p, RxActs(bits, ack), line);
    |held| >= 8 && ValueOf(held[..8]) == b
  }

  class Master {
    /** Levels the slave puts on SDA at the master's successive samples; a pulled-up line after that. */
    const wire: seq<bool>
    var next: nat
    var pins: Pins
    ghost var trace: seq<Act>
    ghost const start: Pins

    function Seen(i: nat): bool {
      if i < |wire| then wire[i] else true
    }

    function SeenBits(from: nat, n: nat): (r: seq<bool>)
      ensures |r| == n
    {
      seq(n, i requires 0 <= i < n => Seen(from + i))
    }

    /** The pins are where the trace has put them. */
    ghost predicate Valid()
      reads this
    {
      pins == After(start, trace)
    }

    constructor (wire: seq<bool>)
      ensures Valid() && trace == [] && pins == Pins(true, true, true) && this.wire == wire && next == 0
    {
      this.wire, next, trace := wire, 0, [];
      pins, start := Pins(true, true, true), Pins(true, true, true);
    }

    method Do(a: Act)
      requires Valid() && !a.Sample?
      modifies this`pins, this`trace
      ensures Valid() && trace == old(trace) + [a] && pins == Apply(old(pins), a)
    {
      Splits(start, trace, [a]);
      pins := Apply(pins, a);
      trace := trace + [a];
    }

    method ReadSda() returns (level: bool)
      requires Valid()
      modifies this`next, this`trace
      ensures Valid() && level == Seen(old(next)) && next == old(next) + 1 && trace == old(trace) + [Sample(level)]
    {
      level := Seen(next);
      next := next + 1;
      Splits(start, trace, [Sample(level)]);
      trace := trace + [Sample(level)];
    }

    method Start()
      requires Valid()
      modifies this`pins, this`trace
      ensures Valid() && trace == old(trace) + START
    {
      Do(Sda(true));
      Do(Scl(true));
      Do(Sda(false));
      Do(Scl(false));
    }

    method Stop()
      requires Valid()
      modifies this`pins, this`trace
      ensures Valid() && trace == old(trace) + STOP
    {
      Do(Sda(false));
      Do(Scl(true));
      Do(Sda(true));
    }

    method CheckAck() returns (ack: bool)
      requires Valid()
      modifies this`pins, this`trace, this`next
      ensures Valid() && next == old(next) + 1 && ack == !Seen(old(next))
      ensures trace == old(trace) + AckSlot(!ack)
    {
      hide After;
      Do(Release);
      Do(Scl(false));
      Do(Scl(true));
      var level := ReadSda();
      ack := !level;
      Do(Scl(false));
      Do(Drive);
      Do(Sda(false));
    }

    /** One data bit: the level while SCL is low, then a clock pulse. */
    method SendLevel(level: bool)
      requires Valid()
      modifies this`pins, this`trace, this`next
      ensures Valid() && next == old(next) && trace == old(trace) + SendBit(level)
    {
      hide After;
      Do(Sda(level));
      Do(Scl(true));
      Do(Scl(false));
    }

    /** Data bit `i`, the byte having been shifted left `i` times. */
    method SendDataBit(b: byte, i: nat)
      requires Valid() && i < 8
      modifies this`pins, this`trace, this`next
      ensures Valid() && next == old(next) && trace == old(trace) + SendBit(BitsOf(b)[i])
    {
      TopBitAfterShift(b, i);
      hide After, Pow2, SendBit, Valid;
      if b * Pow2(i) / 128 % 2 == 1 {
        SendLevel(true);
      } else {
        SendLevel(false);
      }
    }

    method TxByte(b: byte) returns (ack: bool)
      requires Valid()
      modifies this`pins, this`trace, this`next
      ensures Valid() && next == old(next) + 1 && ack == !Seen(old(next))
      ensures trace == old(trace) + TxActs(b, !ack)
    {
      hide After, BitsOf, AckSlot, SendBit, Valid;
      Do(Scl(false));
      var i := 0;
      ghost var bits := BitsOf(b);
      ghost var head := trace;
      assert bits[..0] == [];
      while i < 8
        invariant 0 <= i <= 8 && Valid()
        invariant trace == head + SendBits(bits[..i])
        invariant next == old(next)
      {
        SendDataBit(b, i);
        assert bits[..i + 1][..i] == bits[..i];
        Reassociate(head, SendBits(bits[..i]), SendBit(bits[i]));
        i := i + 1;
      }
      assert bits[..8] == bits;
      ack := CheckAck();
      Reassociate(old(trace), [Scl(false)], SendBits(bits));
      Reassociate(old(trace), [Scl(false)] + SendBits(bits), AckSlot(!ack));
    }

    method RxByte(ack: bool) returns (b: byte)
      requires Valid()
      modifies this`pins, this`trace, this`next
      ensures Valid() && next == old(next) + 8
      ensures b == ValueOf(SeenBits(old(next), 8))
      ensures trace == old(trace) + RxActs(SeenBits(old(next), 8), ack)
      ensures !old(pins).scl ==> forall line ::
        I2cSampling.Steady(old(pins), RxActs(SeenBits(old(next), 8), ack), line) ==> HoldsByte(old(pins), SeenBits(old(next), 8), ack, line, b)
    {
      ghost var p, seen := pins, SeenBits(next, 8);
      if !p.scl {
        forall line | I2cSampling.Steady(p, RxActs(seen, ack), line)
          ensures HoldsByte(p, seen, ack, line, ValueOf(seen))
        {
          I2cSampling.RxReadsHeld(p, seen, ack, line);
        }
      }
      hide HoldsByte, I2cSampling.Steady, After, ValueOf, GetBits;
      Do(Release);
      ghost var head := trace;
      b := RxBits();
      assert head + GetBits(seen) == old(trace) + ([Release] + GetBits(seen));
      Do(Drive);
      Do(Sda(!ack));
      Do(Scl(true));
      Do(Scl(false));
    }

    /** The loop over the eight bits of a byte. */
    method RxBits() returns (b: byte)
      requires Valid()
      modifies this`pins, this`trace, this`next
      ensures Valid() && next == old(next) + 8
      ensures b == ValueOf(SeenBits(old(next), 8))
      ensures trace == old(trace) + GetBits(SeenBits(old(next), 8))
    {
      hide After, ValueOf, GetBit;
      var value, i := 0, 0;
      ghost var bits := SeenBits(next, 8);
      ValueOfNone(bits);
      while i < 8
        invariant 0 <= i <= 8 && Valid() && next == old(next) + i
        invariant value == ValueOf(bits[..i]) < 256
        invariant trace == old(trace) + GetBits(bits[..i])
      {
        ValueStep(bits, i);
        var level := ClockIn();
        value := value * 2 % 256;
        if level {
          value := value + 1;
        }
        assert bits[..i + 1][..i] == bits[..i];
        assert GetBits(bits[..i + 1]) == GetBits(bits[..i]) + GetBit(bits[i]);
        i := i + 1;
      }
      assert bits[..8] == bits;
      b := value;
    }

    method ClockIn() returns (level: bool)
      requires Valid()
      modifies this`pins, this`trace, this`next
      ensures Valid() && next == old(next) + 1 && level == Seen(old(next)) && trace == old(trace) + GetBit(level)
    {
      hide After;
      Do(Scl(true));
      level := ReadSda();
      Do(Scl(false));
    }

    /** Sends `len` bytes until one is refused; returns the index of that byte, or `len`. */
    method WriteBuf(buf: array?<byte>, len: int) returns (r: int)
      requires Valid() && (buf != null ==> len <= buf.Length)
      modifies this`pins, this`trace, this`next
      ensures Valid()
      ensures buf == null || len == 0 ==> r == -1 && trace == old(trace)
      ensures buf != null && len < 0 ==> r == 0 && trace == old(trace)
      ensures buf != null && len > 0 ==>
        var nacks := SeenBits(old(next), len);
        r == FirstTrue(nacks) && trace == old(trace) + WriteActs(buf[..len], nacks)
    {
      if buf == null || len == 0 {
        return -1;
      }
      if len < 0 {
        return 0;
      }
      r := SendAll(buf, len);
    }

    /** Byte `r` of a buffer write that started at sample `first`. */
    method SendNext(buf: array<byte>, len: nat, r: nat, ghost first: nat) returns (ack: bool)
      requires Valid() && r < len <= buf.Length && next == first + r
      modifies this`pins, this`trace, this`next
      ensures Valid() && next == first + r + 1
      ensures var data, nacks := buf[..len], SeenBits(first, len);
        && old(trace) + WriteActs(data[r..], nacks[r..])
           == trace + (if ack then WriteActs(data[r + 1..], nacks[r + 1..]) else [])
        && FirstTrue(nacks[r..]) == if ack then 1 + FirstTrue(nacks[r + 1..]) else 0
    {
      ghost var data, nacks := buf[..len], SeenBits(first, len);
      assert nacks[r] == Seen(next);
      hide After, TxActs, Valid, WriteActs, FirstTrue, SeenBits;
      WriteActsAt(data, nacks, r);
      ghost var before := trace;
      ack := TxByte(buf[r]);
      Reassociate(before, TxActs(data[r], nacks[r]), if ack then WriteActs(data[r + 1..], nacks[r + 1..]) else []);
    }

    /** The loop of a buffer write. */
    method SendAll(buf: array<byte>, len: nat) returns (r: nat)
      requires Valid() && 0 < len <= buf.Length
      modifies this`pins, this`trace, this`next
      ensures Valid()
      ensures var nacks := SeenBits(old(next), len);
        r == FirstTrue(nacks) && trace == old(trace) + WriteActs(buf[..len], nacks)
    {
      hide After, TxActs, Valid, WriteActs, FirstTrue, SeenBits;
      ghost var data, nacks, first := buf[..len], SeenBits(next, len), next;
      assert data[0..] == data && nacks[0..] == nacks;
      ghost var goal := trace + WriteActs(data, nacks);
      var ack := true;
      r := 0;
      while r < len && ack
        invariant 0 <= r <= len && Valid() && (ack ==> next == first + r)
        invariant goal == trace + if ack then WriteActs(data[r..], nacks[r..]) else []
        invariant FirstTrue(nacks) == r + if ack then FirstTrue(nacks[r..]) else 0
        decreases len - r, ack
      {
        ack := SendNext(buf, len, r, first);
        if ack {
          r := r + 1;
        }
      }
      if ack {
        WriteActsEnd(data[r..], nacks[r..]);
      }
    }

    /** The bit frames a read of `n` bytes clocks in. */
    function Frames(from: nat, n: nat): (r: seq<seq<bool>>)
      ensures |r| == n
      decreases n
    {
      if n == 0 then [] else [SeenBits(from, 8)] + Frames(from + 8, n - 1)
    }

    /** Receives `len` bytes, acknowledging all but the last. */
    method ReadBuf(buf: array?<byte>, len: nat) returns (r: int)
      requires Valid() && (buf != null ==> len <= buf.Length)
      modifies this`pins, this`trace, this`next, if buf != null then {buf} else {}
      ensures Valid()
      ensures buf == null || len == 0 ==> r == -1 && trace == old(trace)
      ensures buf != null && len > 0 ==>
        var frames := Frames(old(next), len);
        && r == len
        && trace == old(trace) + ReadActs(frames)
        && (forall i :: 0 <= i < len ==> buf[i] == ValueOf(frames[i]))
        && buf[len..] == old(buf[len..])
    {
      if buf == null || len == 0 {
        return -1;
      }
      ReceiveAll(buf, len);
      r := len;
    }

    /** Frame `i` of a read is the eight samples from `from + 8 * i` on. */
    lemma {:induction false} FrameAt(from: nat, n: nat, i: nat)
      requires i < n
      ensures Frames(from, n)[i] == SeenBits(from + 8 * i, 8)
      decreases n
    {
      if i > 0 {
        FrameAt(from + 8, n - 1, i - 1);
      }
    }

    /** The loop of a buffer read and its last byte. */
    method ReceiveAll(buf: array<byte>, len: nat)
      requires Valid() && 0 < len <= buf.Length
      modifies this`pins, this`trace, this`next, buf
      ensures Valid()
      ensures var frames := Frames(old(next), len);
        && trace == old(trace) + ReadActs(frames)
        && (forall i :: 0 <= i < len ==> buf[i] == ValueOf(frames[i]))
        && buf[len..] == old(buf[len..])
    {
      hide After, RxActs, Valid, ValueOf, ReadActs, Frames, SeenBits;
      var i := 0;
      ghost var frames, acts := Frames(next, len), [];
      assert frames[0..] == frames;
      while i < len - 1
        invariant 0 <= i <= len - 1 && Valid() && next == old(next) + 8 * i
        invariant trace == old(trace) + acts && ReadActs(frames) == acts + ReadActs(frames[i..])
        invariant forall k :: 0 <= k < i ==> buf[k] == ValueOf(frames[k])
        invariant buf[len..] == old(buf[len..])
      {
        ReadActsAt(frames, i);
        FrameAt(old(next), len, i);
        buf[i] := RxByte(true);
        acts := acts + RxActs(frames[i], true);
        i := i + 1;
      }
      ReadActsAt(frames, i);
      FrameAt(old(next), len, i);
      buf[len - 1] := RxByte(false);
    }
  }
}
