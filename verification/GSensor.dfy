/** The motion sensor's register accesses: whole transactions over the bit-banged master. */
module GSensor {
  import opened CInt
  import opened I2cBus
  import opened SoftIic

  /** A master that may start: the bus is idle, or SCL is held low. */
  predicate MayStart(p: Pins) {
    !p.scl || (p.output && p.latch)
  }

  /** The bytes of a register read: chip and register, then the chip again and the data, until one is refused. */
  function RegisterOps(data: seq<byte>, nacks: seq<bool>, chip: byte, nack: bool, frames: seq<seq<bool>>): seq<Op>
    requires |nacks| == |data|
  {
    WriteOps(data, nacks) +
    if FirstTrue(nacks) < |data| then []
    else [Restart] + ([Tx(chip, nack)] + if nack then [] else ReadOps(frames))
  }

  lemma WriteTwo(a: byte, b: byte, nacks: seq<bool>)
    requires |nacks| == 2
    ensures WriteActs([a, b], nacks) == TxActs(a, nacks[0]) + if nacks[0] then [] else TxActs(b, nacks[1])
    ensures FirstTrue(nacks) == if nacks[0] then 0 else if nacks[1] then 1 else 2
  {
    hide TxActs;
    assert [a, b][1..] == [b] && [b][1..] == [] && nacks[1..] == [nacks[1]] && nacks[1..][1..] == [];
    assert WriteActs([b], nacks[1..]) == TxActs(b, nacks[1]);
  }

  lemma WriteThree(a: byte, b: byte, c: byte, nacks: seq<bool>)
    requires |nacks| == 3
    ensures WriteActs([a, b, c], nacks)
         == TxActs(a, nacks[0]) + if nacks[0] then [] else TxActs(b, nacks[1]) + if nacks[1] then [] else TxActs(c, nacks[2])
    ensures FirstTrue(nacks) == if nacks[0] then 0 else if nacks[1] then 1 else if nacks[2] then 2 else 3
  {
    hide TxActs;
    assert [a, b, c][1..] == [b, c];
    assert nacks[1..][0] == nacks[1] && nacks[1..][1] == nacks[2];
    WriteTwo(b, c, nacks[1..]);
  }

  lemma RegisterActs(data: seq<byte>, nacks: seq<bool>, chip: byte, nack: bool, frames: seq<seq<bool>>)
    requires |nacks| == |data|
    ensures var ops := RegisterOps(data, nacks, chip, nack, frames);
      && OpsActs(ops) == WriteActs(data, nacks) +
           (if FirstTrue(nacks) < |data| then []
            else START + (TxActs(chip, nack) + if nack then [] else ReadActs(frames)))
      && Restarts(ops) == if FirstTrue(nacks) < |data| then 0 else 1
  {
    WriteIsOps(data, nacks);
    ReadIsOps(frames);
    var last := if nack then [] else ReadOps(frames);
    FirstOp(Tx(chip, nack), last);
    FirstOp(Restart, [Tx(chip, nack)] + last);
    hide TxActs, ReadActs, WriteActs, WriteOps, ReadOps;
    OpsJoin(WriteOps(data, nacks), if FirstTrue(nacks) < |data| then [] else [Restart] + ([Tx(chip, nack)] + last));
  }

  lemma Regroup(a: seq<Act>, b: seq<Act>, c: seq<Act>, d: seq<Act>)
    ensures a + b + c + d == a + (b + c + d)
  {
  }

  /** `gravity_sensor_command`: 1 exactly when chip, register and command were all acknowledged. */
  method Command(m: Master, chip: byte, reg: byte, command: byte) returns (ret: nat)
    requires m.Valid() && MayStart(m.pins)
    modifies m
    ensures m.Valid() && m.pins == Pins(true, true, true)
    ensures var data, nacks := [chip, reg, command], m.SeenBits(old(m.next), 3);
      var t := START + WriteActs(data, nacks) + STOP;
      && ret == (if FirstTrue(nacks) == 3 then 1 else 0)
      && m.trace == old(m.trace) + t
      && Changes(old(m.pins), t) == [Change(High, Low), Change(Low, High)]
      && Heard(Clocked(After(old(m.pins), START), WriteActs(data, nacks)))
         == (if FirstTrue(nacks) < 3 then data[..FirstTrue(nacks) + 1] else data)
  {
    hide After, TxActs, Changes, Clocked, Heard, WriteActs, FirstTrue;
    ghost var p, before := m.pins, m.trace;
    ghost var data, nacks := [chip, reg, command], m.SeenBits(m.next, 3);
    WriteThree(chip, reg, command, nacks);
    BufferWrite(p, data, nacks);
    SentCount(data, nacks);
    Splits(m.start, before, START + WriteActs(data, nacks) + STOP);
    m.Start();
    ret := SendThree(m, chip, reg, command);
    m.Stop();
    Regroup(before, START, WriteActs(data, nacks), STOP);
  }

  /** The three bytes, until one is refused. */
  method SendThree(m: Master, chip: byte, reg: byte, command: byte) returns (ret: nat)
    requires m.Valid()
    modifies m
    ensures m.Valid()
    ensures var nacks := m.SeenBits(old(m.next), 3);
      && ret == (if FirstTrue(nacks) == 3 then 1 else 0)
      && m.trace == old(m.trace) + WriteActs([chip, reg, command], nacks)
  {
    hide After, TxActs, WriteActs, FirstTrue;
    WriteThree(chip, reg, command, m.SeenBits(m.next, 3));
    var ack := m.TxByte(chip);
    if !ack {
      return 0;
    }
    ack := m.TxByte(reg);
    if !ack {
      return 0;
    }
    ack := m.TxByte(command);
    ret := if ack then 1 else 0;
  }

  /** The chip's write address and the register, until one is refused. */
  method SelectRegister(m: Master, chip: byte, reg: byte) returns (ack: bool)
    requires m.Valid()
    modifies m
    ensures m.Valid()
    ensures var nacks := m.SeenBits(old(m.next), 2);
      && ack == (FirstTrue(nacks) == 2)
      && m.trace == old(m.trace) + WriteActs([chip, reg], nacks)
      && (ack ==> m.next == old(m.next) + 2)
  {
    hide After, TxActs, WriteActs, FirstTrue;
    WriteTwo(chip, reg, m.SeenBits(m.next, 2));
    ack := m.TxByte(chip);
    if ack {
      ack := m.TxByte(reg);
    }
  }

  /** The chip's read address, then the data, the last byte refused. */
  method FetchData(m: Master, chip: byte, buf: array<byte>, n: nat) returns (got: nat)
    requires m.Valid() && 0 < n <= buf.Length
    modifies m, buf
    ensures m.Valid()
    ensures var nack, frames := m.Seen(old(m.next)), m.Frames(old(m.next) + 1, n);
      && got == (if nack then 0 else n)
      && m.trace == old(m.trace) + (TxActs(chip, nack) + if nack then [] else ReadActs(frames))
      && (if nack then buf[..] == old(buf[..])
          else buf[n..] == old(buf[n..]) && forall i :: 0 <= i < n ==> buf[i] == ValueOf(frames[i]))
  {
    hide After, TxActs, ReadActs, ValueOf;
    var ack := m.TxByte(chip);
    if !ack {
      return 0;
    }
    m.ReceiveAll(buf, n);
    got := n;
  }

  /** What a register read sees and sends, from the samples the slave gives it. */
  function ReadSeen(m: Master, first: nat, chip: byte, reg: byte, n: nat): seq<Op> {
    RegisterOps([U8(chip - 1), reg], m.SeenBits(first, 2), chip, m.Seen(first + 2), m.Frames(first + 3, n))
  }

  /** Everything between the first start and the stop. */
  method Exchange(m: Master, chip: byte, reg: byte, buf: array<byte>, n: nat) returns (got: nat)
    requires m.Valid() && 0 < n <= buf.Length
    modifies m, buf
    ensures m.Valid() && m.trace == old(m.trace) + OpsActs(ReadSeen(m, old(m.next), chip, reg, n))
    ensures var accepted := FirstTrue(m.SeenBits(old(m.next), 2)) == 2 && !m.Seen(old(m.next) + 2);
      var frames := m.Frames(old(m.next) + 3, n);
      && got == (if accepted then n else 0)
      && (if accepted then buf[n..] == old(buf[n..]) && forall i :: 0 <= i < n ==> buf[i] == ValueOf(frames[i])
          else buf[..] == old(buf[..]))
  {
    hide After, TxActs, WriteActs, ReadActs, ValueOf, FirstTrue, OpsActs, RegisterOps;
    ghost var before, first := m.trace, m.next;
    ghost var data, nacks := [U8(chip - 1), reg], m.SeenBits(first, 2);
    RegisterActs(data, nacks, chip, m.Seen(first + 2), m.Frames(first + 3, n));
    var ack := SelectRegister(m, U8(chip - 1), reg);
    if !ack {
      return 0;
    }
    m.Start();
    got := FetchData(m, chip, buf, n);
    ghost var rest := TxActs(chip, m.Seen(first + 2)) + if m.Seen(first + 2) then [] else ReadActs(m.Frames(first + 3, n));
    Nested(before, WriteActs(data, nacks), START, rest);
  }

  lemma Nested(a: seq<Act>, b: seq<Act>, c: seq<Act>, d: seq<Act>)
    ensures a + b + c + d == a + (b + (c + d))
  {
  }

  /**
   `_gravity_sensor_get_ndata`: on every path, refused or not, one transaction that meets the bus conditions and
   leaves the bus idle; it returns 0 if an address or the register was refused, else the number of bytes read
   (one when none are asked for) with their values in the buffer.
   */
  method GetData(m: Master, chip: byte, reg: byte, buf: array<byte>, len: nat) returns (got: nat)
    requires m.Valid() && MayStart(m.pins) && len < TWO8 && Max(1, len) <= buf.Length
    modifies m, buf
    ensures m.Valid() && m.pins == Pins(true, true, true)
    ensures var n := Max(1, len);
      var ops := ReadSeen(m, old(m.next), chip, reg, n);
      var t := START + OpsActs(ops) + STOP;
      && m.trace == old(m.trace) + t
      && Changes(old(m.pins), t) == Falls(1 + Restarts(ops)) + [Change(Low, High)]
    ensures var n := Max(1, len);
      var accepted := FirstTrue(m.SeenBits(old(m.next), 2)) == 2 && !m.Seen(old(m.next) + 2);
      var frames := m.Frames(old(m.next) + 3, n);
      && got == (if accepted then n else 0)
      && (if accepted then buf[n..] == old(buf[n..]) && forall i :: 0 <= i < n ==> buf[i] == ValueOf(frames[i])
          else buf[..] == old(buf[..]))
  {
    hide After, Changes, OpsActs, Restarts, ReadSeen, ValueOf, FirstTrue;
    ghost var p, before := m.pins, m.trace;
    var n := if len == 0 then 1 else len;
    ghost var acts := OpsActs(ReadSeen(m, m.next, chip, reg, n));
    TransactionConditions(p, ReadSeen(m, m.next, chip, reg, n));
    Splits(m.start, before, START + acts + STOP);
    m.Start();
    got := Exchange(m, chip, reg, buf, n);
    m.Stop();
    Regroup(before, START, acts, STOP);
  }
}
