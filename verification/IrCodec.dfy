/** Infrared sender and receiver: pulse periods out, a shift register in. */
module IrCodec {
  import opened CInt
  import opened Bits

  const TIMER_DIV: seq<nat> := [1, 4, 16, 64, 2, 8, 32, 128, 256, 1024, 4096, 16384, 512, 2048, 8192, 32768]
  const PAD := 750          // receiver counts per millisecond

  datatype Receiver = Receiver(data: nat, user: nat, state: nat, overflow: nat, start: nat)

  /** Shift a bit in from the top. */
  function Shift(w: nat, bit: bool): nat {
    w / 2 + if bit then 0x8000 else 0
  }

  /** A bit is in the register: count it, latch the user code at 16, start over after 32. */
  function Counted(r: Receiver): Receiver {
    var n := U8(r.state + 1);
    r.(state := if n == 33 then 1 else n, user := if n == 16 then r.data else r.user)
  }

  /** `timer_ir_isr` for a gap of `counts`. */
  function Capture(r0: Receiver, counts: nat): Receiver {
    var r := r0.(overflow := 0);
    var cap := U8(counts / PAD);
    if r.start < 3 then r
    else if cap <= 1 then Counted(r.(data := Shift(r.data, false)))
    else if cap == 2 then Counted(r.(data := Shift(r.data, true)))
    else Latch(r)
  }

  /** Other gaps shift nothing, but the state checks still run. */
  function Latch(r: Receiver): Receiver {
    r.(user := if r.state == 16 then r.data else r.user, state := if r.state == 33 then 1 else r.state)
  }

  function Timeout(r: Receiver): Receiver {
    var n := U8(r.overflow + 1);
    r.(overflow := if n > 56 then 56 else n, state := if n > 56 then 0 else r.state, start := if r.start + 1 > 3 then 3 else r.start + 1)
  }

  /** `get_irflt_value`: the key of a complete, complementary code; a bad code resets the receiver. */
  function Value(r: Receiver): (Receiver, nat) {
    if r.state != 32 then (r, 0xff)
    else if Complement(r.data) then (r, r.data % 256)
    else (r.(state := 0), 0xff)
  }

  /** The two bytes differ in every bit: their exclusive or is 0xff. */
  predicate Complement(w: nat) {
    forall i :: 0 <= i < 8 ==> Bit(w % 256, i) != Bit(w / 256, i)
  }

  /** Two numbers below 2^n add up to 2^n - 1 exactly when they differ in each of their n bits. */
  lemma {:induction false} ComplementSum(a: nat, b: nat, n: nat)
    requires a < Pow2(n) && b < Pow2(n)
    ensures a + b == Pow2(n) - 1 <==> forall i :: 0 <= i < n ==> Bit(a, i) != Bit(b, i)
  {
    if n > 0 {
      ComplementSum(a / 2, b / 2, n - 1);
      assert Bit(a, 0) == (a % 2 == 1) && Bit(b, 0) == (b % 2 == 1);
      forall i | 0 < i < n
        ensures Bit(a, i) == Bit(a / 2, i - 1) && Bit(b, i) == Bit(b / 2, i - 1)
      {
        HalfFirst(a, i);
        HalfFirst(b, i);
      }
      assert a + b == 2 * (a / 2 + b / 2) + a % 2 + b % 2;
      assert (forall i :: 0 <= i < n ==> Bit(a, i) != Bit(b, i))
        <==> (Bit(a, 0) != Bit(b, 0) && forall i :: 0 <= i < n - 1 ==> Bit(a / 2, i) != Bit(b / 2, i)) by {
        if Bit(a, 0) != Bit(b, 0) && forall i :: 0 <= i < n - 1 ==> Bit(a / 2, i) != Bit(b / 2, i) {
          forall i | 0 <= i < n
            ensures Bit(a, i) != Bit(b, i)
          {
            if i > 0 {
              assert Bit(a / 2, i - 1) != Bit(b / 2, i - 1);
            }
          }
        }
        if forall i :: 0 <= i < n ==> Bit(a, i) != Bit(b, i) {
          forall i | 0 <= i < n - 1
            ensures Bit(a / 2, i) != Bit(b / 2, i)
          {
            assert Bit(a, i + 1) != Bit(b, i + 1);
          }
        }
      }
    }
  }

  // ---------- sender ----------

  datatype Sender = Sender(count: nat, value: nat, period: nat, running: bool)

  function SendStart(v: nat): Sender {
    Sender(0, v, 9560, true)
  }

  /** `timer5_isr`: every second call loads the next period, in microseconds. */
  function SendIsr(s: Sender): Sender {
    var n := s.count + 1;
    if n % 2 == 1 then s.(count := n)
    else if n / 2 == 1 then s.(count := n, period := 5060)
    else if n / 2 == 34 then s.(count := 0, running := false)
    else if n / 2 <= 33 && Bit(s.value, 33 - n / 2) then s.(count := n, period := 2240)
    else s.(count := n, period := 1120)
  }

  function SendIsrs(s: Sender, k: nat): Sender {
    if k == 0 then s else SendIsr(SendIsrs(s, k - 1))
  }

  /** The period loaded for frame position `k`: leader, then bits from the most significant. */
  function Period(v: nat, k: nat): nat
    requires k <= 33
  {
    if k == 0 then 9560 else if k == 1 then 5060 else if Bit(v, 33 - k) then 2240 else 1120
  }

  lemma TwoIsrs(s: Sender, k: nat)
    ensures SendIsrs(s, k + 2) == SendIsr(SendIsr(SendIsrs(s, k)))
  {
    assert SendIsrs(s, k + 1) == SendIsr(SendIsrs(s, k));
  }

  /** The pair of interrupts that loads period `k`, and the pair after the last. */
  lemma SendPair(v: nat, period: nat, k: nat)
    requires 1 <= k <= 34
    ensures var s := SendIsr(SendIsr(Sender(2 * k - 2, v, period, true)));
      if k <= 33 then s == Sender(2 * k, v, Period(v, k), true) else !s.running
  {
    hide Bit;
    assert (2 * k - 1) % 2 == 1 && 2 * k % 2 == 0 && 2 * k / 2 == k;
  }

  lemma NoIsrs(v: nat)
    ensures SendIsrs(SendStart(v), 0) == Sender(0, v, Period(v, 0), true)
  {
  }

  /** MAIN (sender): after 2k interrupts the timer runs period k. */
  lemma {:induction false} SenderPeriods(v: nat, k: nat)
    requires k <= 33
    ensures SendIsrs(SendStart(v), 2 * k) == Sender(2 * k, v, Period(v, k), true)
  {
    hide SendIsr, SendIsrs, Period, SendStart;
    if k == 0 {
      NoIsrs(v);
    } else {
      SenderPeriods(v, k - 1);
      TwoIsrs(SendStart(v), 2 * (k - 1));
      SendPair(v, Period(v, k - 1), k);
    }
  }

  /** And the 68th stops it. */
  lemma SenderStops(v: nat, n: nat)
    requires n == 68
    ensures !SendIsrs(SendStart(v), n).running
  {
    hide SendIsr, SendIsrs, Period, SendStart;
    SenderPeriods(v, 33);
    TwoIsrs(SendStart(v), 66);
    SendPair(v, Period(v, 33), 34);
  }

  // ---------- the shift register ----------

  function Shifts(w: nat, bits: seq<bool>): nat
    decreases |bits|
  {
    if bits == [] then w else Shifts(Shift(w, bits[0]), bits[1..])
  }

  /** Number whose bit i is element i. */
  function LeValue(bits: seq<bool>): nat {
    if bits == [] then 0 else (if bits[0] then 1 else 0) + 2 * LeValue(bits[1..])
  }

  lemma {:induction false} LeBound(bits: seq<bool>)
    ensures LeValue(bits) < Pow2(|bits|)
  {
    if bits != [] {
      LeBound(bits[1..]);
    }
  }

  lemma {:induction false} LeBits(bits: seq<bool>, i: nat)
    requires i < |bits|
    ensures Bit(LeValue(bits), i) == bits[i]
    decreases i
  {
    var v, rest := LeValue(bits), LeValue(bits[1..]);
    assert v / 2 == rest && (v % 2 == 1 <==> bits[0]);
    hide LeValue;
    if i == 0 {
      assert Pow2(0) == 1;
    } else {
      LeBits(bits[1..], i - 1);
      HalfFirst(v, i);
    }
  }

  /** Dividing by 2^i is halving and dividing by 2^(i-1). */
  lemma HalfFirst(x: nat, i: nat)
    requires i > 0
    ensures x / Pow2(i) == x / 2 / Pow2(i - 1)
  {
    var p, h := Pow2(i - 1), x / 2;
    assert h == h / p * p + h % p;
    assert x == h / p * (2 * p) + (2 * (h % p) + x % 2) by {
      assert x == 2 * h + x % 2;
      assert 2 * (h / p * p) == h / p * (2 * p);
    }
    ModUnique(x, h / p, 2 * (h % p) + x % 2, 2 * p);
  }

  lemma DivOfSum(a: nat, c: nat, p: nat)
    requires p > 0
    ensures (a + c * p) / p == a / p + c
  {
    assert a == a / p * p + a % p;
    assert a + c * p == (a / p + c) * p + a % p;
    ModUnique(a + c * p, a / p + c, a % p, p);
  }

  /** After n <= 16 shifts the new bits sit on top of what is left of the old word. */
  lemma {:induction false} ShiftsValue(w: nat, bits: seq<bool>)
    requires |bits| <= 16
    ensures Shifts(w, bits) == w / Pow2(|bits|) + LeValue(bits) * Pow2(16 - |bits|)
    decreases |bits|
  {
    var n := |bits|;
    if n == 0 {
      assert Pow2(0) == 1;
    } else {
      ShiftsValue(Shift(w, bits[0]), bits[1..]);
      TopBit(w, bits[0], n);
      var low := if bits[0] then 1 else 0;
      var rest, q := LeValue(bits[1..]), Pow2(16 - n);
      assert Pow2(16 - (n - 1)) == 2 * q;
      Spread(low, rest, q);
    }
  }

  lemma Spread(low: nat, rest: nat, q: nat)
    ensures (low + 2 * rest) * q == low * q + rest * (2 * q)
  {
  }

  /** Where the newest bit of a shift ends up after n - 1 more. */
  lemma TopBit(w: nat, bit: bool, n: nat)
    requires 1 <= n <= 16
    ensures Shift(w, bit) / Pow2(n - 1) == w / Pow2(n) + (if bit then 1 else 0) * Pow2(16 - n)
  {
    var low := if bit then 1 else 0;
    var p, q := Pow2(n - 1), Pow2(16 - n);
    Pow2Adds(16 - n, n - 1);
    assert Pow2(15) == 0x8000 by {
      assert Pow2(7) == 128 && Pow2(8) == 256;
      Pow2Adds(7, 8);
    }
    DivOfSum(w / 2, low * q, p);
    assert low * q * p == low * (q * p);
    HalfFirst(w, n);
  }

  lemma Word16()
    ensures Pow2(16) == TWO16 && Pow2(0) == 1
  {
    assert Pow2(8) == 256;
    Pow2Adds(8, 8);
  }

  /** Sixteen shifts replace the word: bit i is the i-th bit shifted in. */
  lemma SixteenShifts(w: nat, bits: seq<bool>)
    requires w < TWO16 && |bits| == 16
    ensures Shifts(w, bits) == LeValue(bits) < TWO16
    ensures forall i :: 0 <= i < 16 ==> Bit(Shifts(w, bits), i) == bits[i]
  {
    hide *;
    ShiftsValue(w, bits);
    LeBound(bits);
    Word16();
    assert Shifts(w, bits) == LeValue(bits);
    forall i | 0 <= i < 16
      ensures Bit(Shifts(w, bits), i) == bits[i]
    {
      LeBits(bits, i);
    }
  }

  lemma {:induction false} ShiftsSnoc(w: nat, bits: seq<bool>, b: bool)
    ensures Shifts(w, bits + [b]) == Shift(Shifts(w, bits), b)
    decreases |bits|
  {
    if bits == [] {
      assert ([] + [b])[1..] == [];
    } else {
      assert (bits + [b])[1..] == bits[1..] + [b];
      ShiftsSnoc(Shift(w, bits[0]), bits[1..], b);
    }
  }

  // ---------- round trip ----------

  function Captures(r: Receiver, counts: seq<nat>): Receiver {
    if counts == [] then r else Capture(Captures(r, counts[..|counts| - 1]), counts[|counts| - 1])
  }

  /** A gap measured for a bit: under 2 ms for a zero, 2 to 3 ms for a one. */
  predicate Reads(counts: nat, bit: bool) {
    if bit then 2 * PAD <= counts < 3 * PAD else counts < 2 * PAD
  }

  lemma CaptureBit(r: Receiver, counts: nat, bit: bool)
    requires r.start >= 3 && Reads(counts, bit)
    ensures Capture(r, counts) == Counted(r.(data := Shift(r.data, bit), overflow := 0))
  {
    if bit {
      ModUnique(counts, 2, counts - 2 * PAD, PAD);
    } else if counts < PAD {
      ModUnique(counts, 0, counts, PAD);
    } else {
      ModUnique(counts, 1, counts - PAD, PAD);
    }
  }

  /** Counts per bit as they must be read for the bits of a frame. */
  ghost predicate ReadsAll(counts: seq<nat>, bits: seq<bool>) {
    |counts| == |bits| && forall i :: 0 <= i < |bits| ==> Reads(counts[i], bits[i])
  }

  /** The user code of a receiver after some bits of a frame: latched at 16. */
  function LatchedUser(r: Receiver, bits: seq<bool>): nat {
    if r.state < 16 <= r.state + |bits| then Shifts(r.data, bits[..16 - r.state]) else r.user
  }

  lemma LatchStep(r: Receiver, bits: seq<bool>, bit: bool)
    ensures var all := bits + [bit];
      LatchedUser(r, all) == if r.state + |all| == 16 then Shifts(r.data, all) else LatchedUser(r, bits)
  {
    hide Shifts;
    var all := bits + [bit];
    if r.state + |all| == 16 {
      assert all[..16 - r.state] == all;
    } else if r.state < 16 <= r.state + |bits| {
      assert bits[..16 - r.state] == all[..16 - r.state];
    }
  }

  /** The receiver after some bits of a frame: register shifted, state counted, user code latched. */
  function Received(r: Receiver, bits: seq<bool>): Receiver {
    r.(data := Shifts(r.data, bits), state := r.state + |bits|, overflow := 0, user := LatchedUser(r, bits))
  }

  lemma CountedState(r: Receiver)
    requires r.state < 32
    ensures Counted(r) == r.(state := r.state + 1, user := if r.state + 1 == 16 then r.data else r.user)
  {
  }

  lemma ReceivedStep(r: Receiver, bits: seq<bool>, bit: bool)
    requires r.state + |bits| < 32
    ensures Counted(Received(r, bits).(data := Shift(Shifts(r.data, bits), bit), overflow := 0)) == Received(r, bits + [bit])
  {
    ShiftsSnoc(r.data, bits, bit);
    LatchStep(r, bits, bit);
    hide Shifts, Shift, Counted, LatchedUser;
    CountedState(Received(r, bits).(data := Shift(Shifts(r.data, bits), bit), overflow := 0));
  }

  /** Receiving the bits of a frame does just that. */
  lemma {:induction false} ReceiveBits(r: Receiver, counts: seq<nat>, bits: seq<bool>)
    requires r.start >= 3 && ReadsAll(counts, bits) && 0 < |bits| && r.state + |bits| <= 32
    ensures Captures(r, counts) == Received(r, bits)
    decreases |bits|
  {
    var n := |bits|;
    var b, c := bits[..n - 1], counts[..n - 1];
    assert bits == b + [bits[n - 1]];
    assert Reads(counts[n - 1], bits[n - 1]);
    assert b == [] ==> Shifts(r.data, b) == r.data && LatchedUser(r, b) == r.user;
    ReceivedStep(r, b, bits[n - 1]);
    hide Shifts, Shift, Capture, Reads, Counted, LatchedUser;
    if n == 1 {
      assert Captures(r, c) == r;
      CaptureBit(r, counts[0], bits[0]);
    } else {
      ReceiveBits(r, c, b);
      CaptureBit(Captures(r, c), counts[n - 1], bits[n - 1]);
    }
  }

  /** From a finished frame (state 32) the first bit leaves the receiver as from a fresh one. */
  lemma SecondFrameStartsOver(r: Receiver, counts: nat, bit: bool)
    requires r.start >= 3 && r.state == 32 && Reads(counts, bit)
    ensures Capture(r, counts) == Capture(r.(state := 0), counts)
  {
    CaptureBit(r, counts, bit);
    CaptureBit(r.(state := 0), counts, bit);
  }

  lemma {:induction false} SecondFrame(r: Receiver, counts: seq<nat>, bits: seq<bool>)
    requires r.start >= 3 && r.state == 32 && ReadsAll(counts, bits) && 0 < |bits|
    ensures Captures(r, counts) == Captures(r.(state := 0), counts)
    decreases |bits|
  {
    var n := |bits|;
    if n == 1 {
      SecondFrameStartsOver(r, counts[0], bits[0]);
      assert counts[..0] == [];
    } else {
      SecondFrame(r, counts[..n - 1], bits[..n - 1]);
    }
  }

  /** The bits of a word in sending order. */
  function FrameBits(v: nat): (r: seq<bool>)
    ensures |r| == 32
  {
    seq(32, i requires 0 <= i < 32 => Bit(v, 31 - i))
  }

  lemma CapturesSplit(r: Receiver, a: seq<nat>, b: seq<nat>)
    ensures Captures(r, a + b) == Captures(Captures(r, a), b)
    decreases |b|
  {
    if b == [] {
      assert a + b == a;
    } else {
      assert (a + b)[..|a + b| - 1] == a + b[..|b| - 1];
      CapturesSplit(r, a, b[..|b| - 1]);
    }
  }

  /** Leader gaps (3 ms and longer) change nothing but the overflow counter. */
  lemma LeaderIgnored(r: Receiver, counts: nat)
    requires (r.state == 0 || r.state == 32) && 3 * PAD <= counts < TWO16
    ensures Capture(r, counts) == r.(overflow := 0)
  {
    var q := counts / PAD;
    assert counts == q * PAD + counts % PAD;
    assert 3 <= q < 256;
  }

  /** The receiver's halves are those of `v`, each bit-reversed. */
  ghost predicate Carries(q: Receiver, v: nat) {
    && q.user < TWO16 && q.data < TWO16
    && forall i :: 0 <= i < 16 ==> Bit(q.user, i) == Bit(v, 31 - i) && Bit(q.data, i) == Bit(v, 15 - i)
  }

  /**
   MAIN: a leader and the 32 gaps of `v`, each within its tolerance, leave the complete code in the
   receiver with the halves bit-reversed - from a fresh receiver or straight after another frame.
   */
  lemma IrRoundTrip(r: Receiver, v: nat, leader: seq<nat>, counts: seq<nat>)
    requires r.start >= 3 && r.data < TWO16 && (r.state == 0 || r.state == 32)
    requires forall i :: 0 <= i < |leader| ==> 3 * PAD <= leader[i] < TWO16
    requires ReadsAll(counts, FrameBits(v))
    ensures var q := Captures(r, leader + counts); q.state == 32 && Carries(q, v)
  {
    CapturesSplit(r, leader, counts);
    LeadersIgnored(r, leader);
    var s := Captures(r, leader);
    if s.state == 32 {
      SecondFrame(s, counts, FrameBits(v));
    }
    FrameReceived(s.(state := 0), v, counts);
    hide Captures;
  }

  lemma FrameReceived(r: Receiver, v: nat, counts: seq<nat>)
    requires r.start >= 3 && r.data < TWO16 && r.state == 0 && ReadsAll(counts, FrameBits(v))
    ensures var q := Captures(r, counts); q.state == 32 && Carries(q, v)
  {
    hide Captures, Shifts, Bit;
    var bits := FrameBits(v);
    var hi, lo := bits[..16], bits[16..];
    ReceiveBits(r, counts, bits);
    assert LatchedUser(r, bits) == Shifts(r.data, hi);
    SixteenShifts(r.data, hi);
    assert hi + lo == bits;
    ShiftsSplit(r.data, hi, lo);
    SixteenShifts(Shifts(r.data, hi), lo);
    forall i | 0 <= i < 16
      ensures hi[i] == Bit(v, 31 - i) && lo[i] == Bit(v, 15 - i)
    {
    }
  }

  lemma {:induction false} LeadersIgnored(r: Receiver, leader: seq<nat>)
    requires (r.state == 0 || r.state == 32) && forall i :: 0 <= i < |leader| ==> 3 * PAD <= leader[i] < TWO16
    ensures Captures(r, leader) == if leader == [] then r else r.(overflow := 0)
    decreases |leader|
  {
    if leader != [] {
      LeadersIgnored(r, leader[..|leader| - 1]);
      LeaderIgnored(Captures(r, leader[..|leader| - 1]), leader[|leader| - 1]);
    }
  }

  lemma {:induction false} ShiftsSplit(w: nat, a: seq<bool>, b: seq<bool>)
    ensures Shifts(w, a + b) == Shifts(Shifts(w, a), b)
    decreases |a|
  {
    if a == [] {
      assert a + b == b;
    } else {
      assert (a + b)[1..] == a[1..] + b;
      ShiftsSplit(Shift(w, a[0]), a[1..], b);
    }
  }

  // ---------- what comes before the leader ----------

  /** Gaps under 3 ms, each of which shifts a bit in. */
  function Shorts(counts: seq<nat>): nat {
    if counts == [] then 0
    else Shorts(counts[..|counts| - 1]) + if counts[|counts| - 1] < 3 * PAD then 1 else 0
  }

  predicate Word(counts: seq<nat>) {
    forall i :: 0 <= i < |counts| ==> counts[i] < TWO16
  }

  lemma CaptureState(r: Receiver, counts: nat)
    requires r.start >= 3 && r.state <= 32 && r.data < TWO16 && counts < TWO16
    ensures var q := Capture(r, counts);
      && q.state == (if counts >= 3 * PAD then r.state else if r.state == 32 then 1 else r.state + 1)
      && q.start == r.start && q.data < TWO16
  {
    var cap := counts / PAD;
    assert counts == cap * PAD + counts % PAD;
    assert 0 <= cap < 256 && (cap >= 3 <==> counts >= 3 * PAD);
  }

  /** The state counts the short gaps, starting over after 32; nothing but a pause sets it back. */
  lemma {:induction false} StateCountsShorts(r: Receiver, counts: seq<nat>)
    requires r.start >= 3 && r.state <= 32 && r.data < TWO16 && Word(counts)
    ensures var q := Captures(r, counts);
      && q.start == r.start && q.data < TWO16 && q.state <= 32
      && q.state == Counting(r.state, Shorts(counts))
    decreases |counts|
  {
    if counts != [] {
      var init, last := counts[..|counts| - 1], counts[|counts| - 1];
      StateCountsShorts(r, init);
      hide Capture, Counting;
      CountOneMore(r.state, Shorts(init));
      CaptureState(Captures(r, init), last);
    }
  }

  /** The state `k` bits after state `s`. */
  function Counting(s: nat, k: nat): nat {
    if k == 0 then s else (s + k - 1) % 32 + 1
  }

  lemma CountOneMore(s: nat, k: nat)
    requires s <= 32
    ensures Counting(s, k + 1) == (if Counting(s, k) == 32 then 1 else Counting(s, k) + 1)
    ensures Counting(s, 0) == s
  {
  }

  /** State and bits make whole frames. */
  predicate Whole(s: nat, k: nat) {
    (s + k) % 32 == 0
  }

  lemma CountFrame(s: nat, k: nat)
    requires s <= 32
    ensures Counting(s, k + 32) == 32 <==> Whole(s, k)
    ensures Counting(s, k) == 0 || Counting(s, k) == 32 <==> Whole(s, k)
  {
  }

  lemma {:induction false} ShortsJoin(a: seq<nat>, b: seq<nat>)
    ensures Shorts(a + b) == Shorts(a) + Shorts(b)
    decreases |b|
  {
    if b == [] {
      assert a + b == a;
    } else {
      assert (a + b)[..|a + b| - 1] == a + b[..|b| - 1];
      ShortsJoin(a, b[..|b| - 1]);
    }
  }

  lemma {:induction false} AllShort(counts: seq<nat>)
    requires forall i :: 0 <= i < |counts| ==> counts[i] < 3 * PAD
    ensures Shorts(counts) == |counts|
    decreases |counts|
  {
    if counts != [] {
      AllShort(counts[..|counts| - 1]);
    }
  }

  lemma {:induction false} NoneShort(counts: seq<nat>)
    requires forall i :: 0 <= i < |counts| ==> 3 * PAD <= counts[i]
    ensures Shorts(counts) == 0
    decreases |counts|
  {
    if counts != [] {
      NoneShort(counts[..|counts| - 1]);
    }
  }

  lemma AllJoin(before: seq<nat>, leader: seq<nat>, counts: seq<nat>)
    requires Word(before)
    requires forall i :: 0 <= i < |leader| ==> 3 * PAD <= leader[i] < TWO16
    requires forall i :: 0 <= i < |counts| ==> counts[i] < 3 * PAD
    ensures Word(before + leader) && Word(before + leader + counts)
    ensures Shorts(before + leader) == Shorts(before)
    ensures Shorts(before + leader + counts) == Shorts(before) + |counts|
  {
    AllShort(counts);
    NoneShort(leader);
    ShortsJoin(before, leader);
    ShortsJoin(before + leader, counts);
  }

  /** The state after everything, and before the leader. */
  lemma StateAround(r: Receiver, before: seq<nat>, leader: seq<nat>, counts: seq<nat>)
    requires r.start >= 3 && r.state <= 32 && r.data < TWO16 && Word(before)
    requires forall i :: 0 <= i < |leader| ==> 3 * PAD <= leader[i] < TWO16
    requires |counts| == 32 && forall i :: 0 <= i < |counts| ==> counts[i] < 3 * PAD
    ensures Captures(r, before + leader + counts).state == 32 <==> Whole(r.state, Shorts(before))
    ensures var s := Captures(r, before);
      && s.start == r.start && s.data < TWO16
      && (s.state == 0 || s.state == 32 <==> Whole(r.state, Shorts(before)))
  {
    AllJoin(before, leader, counts);
    hide *;
    StateCountsShorts(r, before);
    StateCountsShorts(r, before + leader + counts);
    CountFrame(r.state, Shorts(before));
  }

  /**
   MAIN: whatever gaps come before them, a leader and the 32 gaps of `v` leave the receiver ready to decode, and
   then with the code of `v`, exactly when those gaps have left no unfinished frame: the state and the short
   gaps among them make a multiple of 32.
   */
  lemma FrameReceivedIff(r: Receiver, v: nat, before: seq<nat>, leader: seq<nat>, counts: seq<nat>)
    requires r.start >= 3 && r.state <= 32 && r.data < TWO16 && Word(before)
    requires forall i :: 0 <= i < |leader| ==> 3 * PAD <= leader[i] < TWO16
    requires ReadsAll(counts, FrameBits(v))
    ensures var q := Captures(r, before + leader + counts);
      && (q.state == 32 <==> Whole(r.state, Shorts(before)))
      && (q.state == 32 ==> Carries(q, v))
  {
    BitsShort(v, counts);
    hide *;
    StateAround(r, before, leader, counts);
    var s := Captures(r, before);
    if s.state == 0 || s.state == 32 {
      CapturesSplit(r, before, leader + counts);
      IrRoundTrip(s, v, leader, counts);
      Associate(before, leader, counts);
    }
  }

  lemma Associate(a: seq<nat>, b: seq<nat>, c: seq<nat>)
    ensures a + (b + c) == a + b + c
  {
  }

  lemma BitsShort(v: nat, counts: seq<nat>)
    requires ReadsAll(counts, FrameBits(v))
    ensures |counts| == 32 && forall i :: 0 <= i < |counts| ==> counts[i] < 3 * PAD
  {
    forall i | 0 <= i < |counts|
      ensures counts[i] < 3 * PAD
    {
      assert Reads(counts[i], FrameBits(v)[i]);
    }
  }

  /** Receiver counts for a period in microseconds. */
  function CountsFor(us: nat): nat {
    us * PAD / 1000
  }

  /** The sender's own periods are within the receiver's tolerances. */
  lemma NominalPeriodsRead(v: nat)
    ensures CountsFor(Period(v, 0)) >= 3 * PAD && CountsFor(Period(v, 1)) >= 3 * PAD
    ensures ReadsAll(seq(32, i requires 0 <= i < 32 => CountsFor(Period(v, i + 2))), FrameBits(v))
  {
  }

  // ---------- from sender to receiver, timer ticks included ----------

  function Timeouts(r: Receiver, n: nat): Receiver {
    if n == 0 then r else Timeout(Timeouts(r, n - 1))
  }

  /** Gaps between edges, each with the timeout ticks that fall into it. */
  datatype Gap = Gap(counts: nat, ticks: nat)

  function Hears(r: Receiver, gaps: seq<Gap>): Receiver {
    if gaps == [] then r
    else
      var last := gaps[|gaps| - 1];
      Capture(Timeouts(Hears(r, gaps[..|gaps| - 1]), last.ticks), last.counts)
  }

  function CountsOf(gaps: seq<Gap>): seq<nat> {
    seq(|gaps|, i requires 0 <= i < |gaps| => gaps[i].counts)
  }

  /** Up to 56 ticks only count: neither the state nor the start gate moves. */
  lemma {:induction false} QuietTicks(r: Receiver, n: nat)
    requires r.start == 3 && r.overflow + n <= 56
    ensures Timeouts(r, n) == r.(overflow := r.overflow + n)
  {
    if n > 0 {
      QuietTicks(r, n - 1);
    }
  }

  lemma CaptureForgets(r: Receiver, overflow: nat, counts: nat)
    ensures Capture(r.(overflow := overflow), counts) == Capture(r, counts)
    ensures Capture(r, counts).overflow == 0 && Capture(r, counts).start == r.start
  {
  }

  /** Ticks between edges make no difference as long as 57 do not fall between two of them. */
  lemma {:induction false} HearsIsCaptures(r: Receiver, gaps: seq<Gap>)
    requires r.start == 3 && r.overflow == 0 && forall k :: 0 <= k < |gaps| ==> gaps[k].ticks <= 56
    ensures Hears(r, gaps) == Captures(r, CountsOf(gaps))
    ensures Hears(r, gaps).start == 3 && Hears(r, gaps).overflow == 0
    decreases |gaps|
  {
    if gaps != [] {
      var init, last := gaps[..|gaps| - 1], gaps[|gaps| - 1];
      HearsIsCaptures(r, init);
      assert CountsOf(gaps)[..|gaps| - 1] == CountsOf(init);
      var s := Hears(r, init);
      QuietTicks(s, last.ticks);
      CaptureForgets(s, s.overflow + last.ticks, last.counts);
      hide Capture, Timeouts;
    }
  }

  const JITTER := 180       // counts, 240 microseconds

  /** Gap `k` lies within the jitter of the period the sender's timer runs after 2k interrupts. */
  ghost predicate Transmits(v: nat, gaps: seq<Gap>) {
    |gaps| == 34 && forall k :: 0 <= k < 34 ==>
      CInt.Abs(gaps[k].counts - CountsFor(SendIsrs(SendStart(v), 2 * k).period)) < JITTER && gaps[k].ticks <= 56
  }

  lemma GapReads(v: nat, gaps: seq<Gap>, k: nat)
    requires Transmits(v, gaps) && k < 34
    ensures k < 2 ==> 3 * PAD <= gaps[k].counts < TWO16
    ensures k >= 2 ==> Reads(gaps[k].counts, Bit(v, 33 - k))
  {
    SenderPeriods(v, k);
    hide SendIsrs, Bit;
    assert CInt.Abs(gaps[k].counts - CountsFor(Period(v, k))) < JITTER;
  }

  /**
   MAIN: the frame the sender emits for any `v`, each gap off by less than 240 us and with up to 56 timer
   ticks in it, leaves the receiver with the complete code, the halves bit-reversed.
   */
  lemma SentIsReceived(r: Receiver, v: nat, gaps: seq<Gap>)
    requires r.start == 3 && r.overflow == 0 && r.data < TWO16 && (r.state == 0 || r.state == 32)
    requires Transmits(v, gaps)
    ensures var q := Hears(r, gaps); q.state == 32 && Carries(q, v)
  {
    var counts := CountsOf(gaps);
    GapsRead(v, gaps);
    TicksFew(v, gaps);
    hide Transmits, Hears, Captures, Bit, Reads, ReadsAll;
    assert counts == counts[..2] + counts[2..];
    HearsIsCaptures(r, gaps);
    IrRoundTrip(r, v, counts[..2], counts[2..]);
  }

  lemma GapsRead(v: nat, gaps: seq<Gap>)
    requires Transmits(v, gaps)
    ensures var counts := CountsOf(gaps);
      && |counts| == 34 && ReadsAll(counts[2..], FrameBits(v))
      && forall k :: 0 <= k < 2 ==> 3 * PAD <= counts[..2][k] < TWO16
  {
    var counts := CountsOf(gaps);
    forall k | 0 <= k < 34
      ensures (k < 2 ==> 3 * PAD <= counts[k] < TWO16) && (k >= 2 ==> Reads(counts[k], Bit(v, 33 - k)))
    {
      GapReads(v, gaps, k);
    }
    hide Transmits, Bit, Reads;
    FrameReads(v, counts);
  }

  lemma TicksFew(v: nat, gaps: seq<Gap>)
    requires Transmits(v, gaps)
    ensures |gaps| == 34 && forall k :: 0 <= k < |gaps| ==> gaps[k].ticks <= 56
  {
  }

  lemma FrameReads(v: nat, counts: seq<nat>)
    requires |counts| == 34 && forall k :: 2 <= k < 34 ==> Reads(counts[k], Bit(v, 33 - k))
    ensures ReadsAll(counts[2..], FrameBits(v))
  {
    hide Reads, Bit;
    forall i | 0 <= i < 32
      ensures Reads(counts[2..][i], FrameBits(v)[i])
    {
      assert counts[2..][i] == counts[i + 2] && 33 - (i + 2) == 31 - i;
    }
  }

  /** The two bytes of a code are complements: key and inverted key. */
  ghost predicate Inverted(v: nat) {
    forall i :: 8 <= i < 16 ==> Bit(v, i) != Bit(v, i - 8)
  }

  /** The low byte of a word in its upper bits, the high byte below. */
  lemma BytesOf(w: nat, i: nat)
    requires w < TWO16 && i < 8
    ensures Bit(w % 256, i) == Bit(w, i) && Bit(w / 256, i) == Bit(w, i + 8)
  {
    var p := Pow2(i);
    assert Pow2(8) == 256;
    Pow2Adds(i, 8);
    Pow2Adds(8 - i, i);
    Lower(w, p, Pow2(8 - i));
    Upper(w, p);
  }

  lemma Upper(w: nat, p: nat)
    requires p > 0
    ensures w / 256 / p == w / (p * 256)
  {
    var q := w / 256;
    assert w == q * 256 + w % 256 && q == q / p * p + q % p;
    assert w == q / p * (p * 256) + (q % p * 256 + w % 256);
    assert q % p <= p - 1;
    ModUnique(w, q / p, q % p * 256 + w % 256, p * 256);
  }

  lemma EvenAdds(w: nat, r: nat, k: nat, p: nat)
    requires p > 0 && w == r + k * p && k % 2 == 0
    ensures r / p % 2 == w / p % 2
  {
    DivOfSum(r, k, p);
  }

  lemma Lower(w: nat, p: nat, c: nat)
    requires p > 0 && c * p == 256 && c % 2 == 0
    ensures w % 256 / p % 2 == w / p % 2
  {
    var q := w / 256;
    EvenProduct(q, c);
    Regroup(q, c, p);
    assert w == w % 256 + q * 256;
    EvenAdds(w, w % 256, q * c, p);
  }

  lemma Regroup(q: nat, c: nat, p: nat)
    ensures q * (c * p) == q * c * p
  {
  }

  lemma EvenProduct(q: nat, c: nat)
    requires c % 2 == 0
    ensures q * c % 2 == 0
  {
    assert q * c == q * (c / 2) * 2;
  }

  lemma KeyOf(q: Receiver, v: nat)
    requires q.state == 32 && Carries(q, v)
    ensures var (s, key) := Value(q);
      if Inverted(v) then s == q && key < 256 && forall i :: 0 <= i < 8 ==> Bit(key, i) == Bit(v, 15 - i)
      else s == q.(state := 0) && key == 255
  {
    forall i | 0 <= i < 8
      ensures Bit(q.data % 256, i) == Bit(v, 15 - i) && Bit(q.data / 256, i) == Bit(v, 7 - i)
    {
      BytesOf(q.data, i);
      assert Bit(q.data, i) == Bit(v, 15 - i) && Bit(q.data, i + 8) == Bit(v, 15 - (i + 8));
    }
    hide Bit;
    assert Inverted(v) <==> Complement(q.data) by {
      if Complement(q.data) {
        forall i | 8 <= i < 16
          ensures Bit(v, i) != Bit(v, i - 8)
        {
          assert Bit(q.data % 256, 15 - i) != Bit(q.data / 256, 15 - i);
        }
      }
      if Inverted(v) {
        forall i | 0 <= i < 8
          ensures Bit(q.data % 256, i) != Bit(q.data / 256, i)
        {
          assert Bit(v, 15 - i) != Bit(v, 15 - i - 8);
        }
      }
    }
  }

  /**
   MAIN: the key decoded from the frame sent for `v` is the upper byte of its low half, bit-reversed, if the lower
   byte is its complement; otherwise it is 255 and the receiver starts over.
   */
  lemma KeyDecoded(r: Receiver, v: nat, gaps: seq<Gap>)
    requires r.start == 3 && r.overflow == 0 && r.data < TWO16 && (r.state == 0 || r.state == 32)
    requires Transmits(v, gaps)
    ensures var q := Hears(r, gaps);
      var (s, key) := Value(q);
      if Inverted(v) then s == q && key < 256 && forall i :: 0 <= i < 8 ==> Bit(key, i) == Bit(v, 15 - i)
      else s == q.(state := 0) && key == 255
  {
    SentIsReceived(r, v, gaps);
    hide Hears, Transmits;
    KeyOf(Hears(r, gaps), v);
  }

  // ---------- the first frame after a pause ----------

  /** A pause of 57 ticks and more resets the state. */
  lemma {:induction false} PauseResets(r: Receiver, n: nat)
    requires r.start == 3 && r.overflow <= 56 && r.overflow + n > 56 && n > 0
    ensures Timeouts(r, n) == r.(overflow := 56, state := 0)
    decreases n
  {
    if r.overflow + (n - 1) > 56 && n > 1 {
      PauseResets(r, n - 1);
    } else {
      QuietTicks(r, n - 1);
    }
  }

  /**
   MAIN: of the first frame after a pause, the receiver gets the code exactly when the 16-bit count the pause
   itself is captured with, however often it has wrapped, reads as 3 ms or more; otherwise the pause is
   taken for a bit and the frame ends one short.
   */
  lemma AfterPauseIff(r: Receiver, v: nat, pause: Gap, gaps: seq<Gap>)
    requires r.start == 3 && r.overflow <= 56 && r.state <= 32 && r.data < TWO16
    requires pause.ticks >= 57 && pause.counts < TWO16 && Transmits(v, gaps)
    ensures var q := Hears(Capture(Timeouts(r, pause.ticks), pause.counts), gaps);
      && (q.state == 32 <==> pause.counts >= 3 * PAD)
      && (q.state == 32 ==> Carries(q, v))
  {
    PauseResets(r, pause.ticks);
    var idle := r.(overflow := 56, state := 0);
    var s := Capture(idle, pause.counts);
    CaptureState(idle, pause.counts);
    CaptureForgets(idle, idle.overflow, pause.counts);
    hide Capture, Timeouts;
    SentAnyState(s, v, gaps);
  }

  /** The frame of `v` from any state of the receiver. */
  lemma SentAnyState(r: Receiver, v: nat, gaps: seq<Gap>)
    requires r.start == 3 && r.overflow == 0 && r.state <= 32 && r.data < TWO16 && Transmits(v, gaps)
    ensures var q := Hears(r, gaps);
      && (q.state == 32 <==> r.state % 32 == 0)
      && (q.state == 32 ==> Carries(q, v))
  {
    var counts := CountsOf(gaps);
    GapsRead(v, gaps);
    TicksFew(v, gaps);
    hide Transmits, Hears, Captures, Bit, Reads, ReadsAll;
    HearsIsCaptures(r, gaps);
    assert counts == [] + counts[..2] + counts[2..];
    assert Shorts([]) == 0;
    FrameReceivedIff(r, v, [], counts[..2], counts[2..]);
    hide Shorts;
    assert Whole(r.state, 0) <==> r.state % 32 == 0;
  }
}
