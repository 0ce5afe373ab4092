/**
 The UART receive path: a DMA engine fills a ring buffer, the interrupt handler publishes
 bytes by advancing a wrapping 32-bit counter, and readers take published bytes out.

 `received` and `delivered` record the whole history, so the path can be compared with a queue.
 */
module UartQueue {
  import opened CInt
  import opened Bits

  type byte = b: int | 0 <= b < 256

  datatype Port = Port(
    buffer: seq<byte>,
    bufIn: nat,
    bufOut: nat,
    frame: nat,          // bytes per receive interrupt
    hwCount: nat,        // bytes of the current, unfinished frame
    rxPending: bool,
    timeoutPending: bool,
    received: seq<byte>,
    delivered: seq<byte>,
    lost: nat)           // bytes of frames that got no announcement of their own

  /** `uart_dev_open` refuses a ring buffer size that is zero or fails `size & (size - 1)`. */
  predicate SizeAccepted(size: nat) {
    size != 0 && And(size, size - 1) == 0
  }

  lemma AcceptedSizes(size: nat)
    ensures SizeAccepted(size) <==> IsPow2(size)
  {
    if size > 0 {
      PowerOfTwoTest(size);
    }
  }

  function Open(buffer: seq<byte>, frame: nat): Port {
    Port(buffer, 0, 0, frame, 0, false, false, [], [], 0)
  }

  /** Bytes received but not yet read. */
  function Backlog(p: Port): int {
    |p.received| - |p.delivered|
  }

  /** Bytes the interrupt handler has announced to readers. */
  function Published(p: Port): int {
    |p.received| - p.lost - p.hwCount - if p.rxPending then p.frame else 0
  }

  ghost predicate WellSized(p: Port) {
    SizeAccepted(|p.buffer|) && |p.buffer| < TWO32 && 0 < p.frame && p.hwCount < p.frame
  }

  /** Every byte from `from` on is still where the DMA engine put it. */
  ghost predicate Intact(buffer: seq<byte>, received: seq<byte>, from: nat)
    requires |buffer| > 0
  {
    forall i {:trigger received[i]} :: from <= i < |received| ==> buffer[i % |buffer|] == received[i]
  }

  ghost predicate UnreadIntact(p: Port)
    requires |p.buffer| > 0
  {
    Intact(p.buffer, p.received, |p.delivered|)
  }

  ghost predicate Inv(p: Port) {
    && WellSized(p)
    && |p.delivered| <= Published(p)
    && p.bufIn == U32(Published(p))
    && p.bufOut == U32(|p.delivered|)
    && p.delivered <= p.received
    && Backlog(p) <= |p.buffer|
    && UnreadIntact(p)
  }

  /** The interrupt handler makes two tests, and bytes may arrive between them. */
  datatype Step = Byte(b: byte) | LineIdle | FrameTest | TimeoutTest | Read(len: nat)

  /**
   DMA stores a byte; the hardware counts it towards the current frame.  There is one flag for completed
   frames, so a frame completed while it is up is not announced.
   */
  function OnByte(p: Port, b: byte): Port
    requires |p.buffer| > 0
  {
    var full := p.hwCount + 1 == p.frame;
    p.(buffer := p.buffer[|p.received| % |p.buffer| := b],
       received := p.received + [b],
       hwCount := if full then 0 else p.hwCount + 1,
       rxPending := full || p.rxPending,
       lost := p.lost + if full && p.rxPending then p.frame else 0)
  }

  /** The handler's first test: a full frame is announced. */
  function OnFrameTest(p: Port): Port {
    if p.rxPending then p.(bufIn := U32(p.bufIn + p.frame), rxPending := false) else p
  }

  /**
   Its second test: a receive timeout announces the partial frame.  The handler clears the frame flag here
   too, so a frame that was completed since the first test is not announced.
   */
  function OnTimeoutTest(p: Port): Port {
    if p.timeoutPending then
      p.(bufIn := U32(p.bufIn + p.hwCount), hwCount := 0, timeoutPending := false, rxPending := false,
         lost := p.lost + if p.rxPending then p.frame else 0)
    else p
  }

  /** Unread bytes according to the two wrapping counters. */
  function Length(p: Port): nat {
    U32(p.bufIn - p.bufOut)
  }

  function Taken(p: Port, len: nat): nat {
    Min(len, Length(p))
  }

  /** The bytes two `memcpy` calls take from the ring. */
  function Get(p: Port, len: nat): (r: seq<byte>)
    requires |p.buffer| > 0 && Length(p) <= |p.buffer|
    requires And(p.bufOut, |p.buffer| - 1) < |p.buffer|
  {
    var n := Taken(p, len);
    var at := And(p.bufOut, |p.buffer| - 1);
    var first := Min(n, |p.buffer| - at);
    p.buffer[at..at + first] + p.buffer[..n - first]
  }

  function OnRead(p: Port, len: nat): Port
    requires |p.buffer| > 0 && Length(p) <= |p.buffer|
    requires And(p.bufOut, |p.buffer| - 1) < |p.buffer|
  {
    p.(bufOut := U32(p.bufOut + Taken(p, len)), delivered := p.delivered + Get(p, len))
  }

  // ---------- ring arithmetic ----------

  lemma FullWord()
    ensures Pow2(32) == TWO32
  {
    assert Pow2(8) == 256;
    Pow2Adds(8, 8);
    Pow2Adds(16, 16);
  }

  /** A power of two below 2^32 divides 2^32. */
  lemma SizeDivides(k: nat)
    requires Pow2(k) < TWO32
    ensures k < 32 && Pow2(k) * Pow2(32 - k) == TWO32
  {
    FullWord();
    if k >= 32 {
      Pow2Grows(32, k);
    }
    Pow2Adds(k, 32 - k);
  }

  lemma RingMod(x: int, size: nat)
    requires IsPow2(size) && size < TWO32
    ensures U32(x) % size == x % size
  {
    hide Pow2;
    var k: nat :| size == Pow2(k);
    SizeDivides(k);
    ModOfMod(x, size, Pow2(32 - k));
  }

  lemma RingIndex(x: nat, size: nat)
    requires SizeAccepted(size) && size < TWO32
    ensures And(U32(x), size - 1) == U32(x) % size == x % size
  {
    hide And, Pow2, U32;
    AcceptedSizes(size);
    RingMod(x, size);
    var k: nat :| size == Pow2(k);
    MaskIsMod(U32(x), k);
  }

  /** A run of `n <= size` ring slots from slot x % size, as at most two slices. */
  lemma RingSlice(x: nat, i: nat, size: nat)
    requires 0 < size && i < size
    ensures (x + i) % size == if x % size + i < size then x % size + i else x % size + i - size
  {
    assert x == x / size * size + x % size;
    if x % size + i < size {
      ModUnique(x + i, x / size, x % size + i, size);
    } else {
      assert x + i == (x / size + 1) * size + (x % size + i - size);
      ModUnique(x + i, x / size + 1, x % size + i - size, size);
    }
  }

  lemma CountersAgree(p: Port)
    requires Inv(p)
    ensures Length(p) == Published(p) - |p.delivered| <= |p.buffer|
    ensures And(p.bufOut, |p.buffer| - 1) == |p.delivered| % |p.buffer|
  {
    hide And, Intact, SizeAccepted;
    RingIndex(|p.delivered|, |p.buffer|);
    U32Gap(Published(p), |p.delivered|);
  }

  lemma U32Gap(a: nat, b: nat)
    requires b <= a < b + TWO32
    ensures U32(U32(a) - U32(b)) == a - b
  {
  }

  /** MAIN: a read returns the oldest published bytes not yet read, as many as asked for. */
  lemma GetIsNextBytes(p: Port, len: nat)
    requires Inv(p)
    ensures Length(p) <= |p.buffer| && And(p.bufOut, |p.buffer| - 1) < |p.buffer|
    ensures var n := Min(len, Published(p) - |p.delivered|);
      Get(p, len) == p.received[|p.delivered|..|p.delivered| + n]
  {
    CountersAgree(p);
    var size, d := |p.buffer|, |p.delivered|;
    var n := Taken(p, len);
    var got, want := Get(p, len), p.received[d..d + n];
    forall i | 0 <= i < n
      ensures got[i] == want[i]
    {
      RingSlice(d, i, size);
      assert want[i] == p.received[d + i];
      assert p.buffer[(d + i) % size] == p.received[d + i];
    }
  }

  /** No unread byte is overwritten. */
  predicate NoOverrun(p: Port, s: Step) {
    s.Byte? ==> Backlog(p) < |p.buffer|
  }

  function Next(p: Port, s: Step): Port
    requires Inv(p)
  {
    CountersAgree(p);
    match s
    case Byte(b) => OnByte(p, b)
    case LineIdle => p.(timeoutPending := true)
    case FrameTest => OnFrameTest(p)
    case TimeoutTest => OnTimeoutTest(p)
    case Read(len) => OnRead(p, len)
  }

  lemma ByteSlots(p: Port, b: byte)
    requires |p.buffer| > 0 && UnreadIntact(p) && Backlog(p) < |p.buffer| && |p.delivered| <= |p.received|
    ensures UnreadIntact(OnByte(p, b))
  {
    var q := OnByte(p, b);
    var size := |p.buffer|;
    forall i | |q.delivered| <= i < |q.received|
      ensures q.buffer[i % size] == q.received[i]
    {
      if i < |p.received| {
        assert p.buffer[i % size] == p.received[i];
        RingSlice(i, |p.received| - i, size);
      }
    }
  }

  lemma StepKeepsInv(p: Port, s: Step)
    requires Inv(p) && NoOverrun(p, s)
    ensures Inv(Next(p, s))
    ensures Next(p, s).received == p.received + if s.Byte? then [s.b] else []
  {
    CountersAgree(p);
    hide And, SizeAccepted, Get, OnFrameTest, OnTimeoutTest, OnRead, Intact;
    match s
    case Byte(b) => ByteSlots(p, b);
    case LineIdle =>
    case FrameTest => InterruptKeepsInv(p);
    case TimeoutTest => InterruptKeepsInv(p);
    case Read(len) => ReadKeepsInv(p, len);
  }

  lemma U32Adds(x: int, y: int)
    ensures U32(U32(x) + y) == U32(x + y)
  {
  }

  lemma InterruptKeepsInv(p: Port)
    requires Inv(p)
    ensures var q := OnFrameTest(p);
      Inv(q) && q.delivered == p.delivered && q.received == p.received && q.buffer == p.buffer && q.lost == p.lost
    ensures var q := OnTimeoutTest(p);
      Inv(q) && q.delivered == p.delivered && q.received == p.received && q.buffer == p.buffer
  {
    hide And, SizeAccepted, Intact, U32;
    U32Adds(Published(p), p.frame);
    U32Adds(Published(p), p.hwCount);
  }

  /** The steps that lose an announcement: with a frame still unannounced, a timeout is served or another frame ends. */
  predicate LosesFrame(p: Port, s: Step) {
    p.rxPending && ((s == TimeoutTest && p.timeoutPending) || (s.Byte? && p.hwCount + 1 == p.frame))
  }

  lemma StepLoses(p: Port, s: Step)
    requires Inv(p)
    ensures Next(p, s).lost == p.lost + if LosesFrame(p, s) then p.frame else 0
    ensures Next(p, s).frame == p.frame && |Next(p, s).buffer| == |p.buffer|
  {
    assert |p.buffer| > 0;
    hide And, SizeAccepted, Get;
  }

  lemma ReadKeepsInv(p: Port, len: nat)
    requires Inv(p)
    requires Length(p) <= |p.buffer| && And(p.bufOut, |p.buffer| - 1) < |p.buffer|
    ensures var q := OnRead(p, len);
      Inv(q) && q.received == p.received
      && |q.delivered| == |p.delivered| + Min(len, Published(p) - |p.delivered|)
  {
    hide And, SizeAccepted, Get, Intact, U32, Length;
    CountersAgree(p);
    GetIsNextBytes(p, len);
    var n := Taken(p, len);
    IntactShrinks(p.buffer, p.received, |p.delivered|, |p.delivered| + n);
    U32Adds(|p.delivered|, n);
    PrefixGrows(p.delivered, p.received, n);
  }

  lemma PrefixGrows(a: seq<byte>, b: seq<byte>, n: nat)
    requires a <= b && |a| + n <= |b|
    ensures a + b[|a|..|a| + n] <= b && |a + b[|a|..|a| + n]| == |a| + n
  {
  }

  lemma IntactShrinks(buffer: seq<byte>, received: seq<byte>, from: nat, to: nat)
    requires |buffer| > 0 && from <= to && Intact(buffer, received, from)
    ensures Intact(buffer, received, to)
  {
  }

  /** Writing into the slot of the oldest unread byte. */
  lemma FullRingWrite(buffer: seq<byte>, received: seq<byte>, d: nat, b: byte)
    requires |buffer| > 0 && |received| == d + |buffer| && Intact(buffer, received, d)
    ensures |received| % |buffer| == d % |buffer|
    ensures Intact(buffer[d % |buffer| := b], received + [b], d) <==> b == received[d]
  {
    var size := |buffer|;
    ModUnique(d + size, d / size + 1, d % size, size) by {
      assert d == d / size * size + d % size;
      assert (d / size + 1) * size == d / size * size + size;
    }
    var next, all := buffer[d % size := b], received + [b];
    assert buffer[d % size] == received[d] == all[d];
    if b == received[d] {
      assert next == buffer;
      forall i | d <= i < |all|
        ensures next[i % size] == all[i]
      {
        if i < |received| {
          assert buffer[i % size] == received[i];
        }
      }
    } else {
      assert next[d % size] != all[d];
    }
  }

  /** Exactly when a DMA write leaves the unread bytes as they were received. */
  lemma OverrunIff(p: Port, b: byte)
    requires Inv(p)
    ensures UnreadIntact(OnByte(p, b)) <==>
      Backlog(p) < |p.buffer| || b == p.received[|p.delivered|]
  {
    assert |p.buffer| > 0 && UnreadIntact(p);
    hide Intact, SizeAccepted, U32;
    if Backlog(p) < |p.buffer| {
      ByteSlots(p, b);
    } else {
      FullRingWrite(p.buffer, p.received, |p.delivered|, b);
    }
  }

  // ---------- runs ----------

  ghost predicate Clean(p: Port, run: seq<Step>)
    requires Inv(p)
    decreases |run|
  {
    run == [] || (NoOverrun(p, run[0]) && (StepKeepsInv(p, run[0]); Clean(Next(p, run[0]), run[1..])))
  }

  ghost function Run(p: Port, run: seq<Step>): Port
    requires Inv(p) && Clean(p, run)
    decreases |run|
  {
    if run == [] then p else
      StepKeepsInv(p, run[0]);
      Run(Next(p, run[0]), run[1..])
  }

  /** What the DMA engine was fed during a run. */
  function Bytes(run: seq<Step>): seq<byte> {
    if run == [] then []
    else (if run[0].Byte? then [run[0].b] else []) + Bytes(run[1..])
  }

  lemma {:induction false} RunKeepsInv(p: Port, run: seq<Step>)
    requires Inv(p) && Clean(p, run)
    ensures Inv(Run(p, run))
    ensures Run(p, run).received == p.received + Bytes(run)
    decreases |run|
  {
    hide Inv, Next;
    if run != [] {
      StepKeepsInv(p, run[0]);
      RunKeepsInv(Next(p, run[0]), run[1..]);
    }
  }

  /** What a step announces: a full frame at the first test, the partial one at the second, each only if it is due. */
  lemma StepAnnounces(p: Port, s: Step)
    requires Inv(p) && NoOverrun(p, s)
    ensures var q := Next(p, s);
      && Published(q) == Published(p) + (if s == FrameTest && p.rxPending then p.frame
                                         else if s == TimeoutTest && p.timeoutPending then p.hwCount else 0)
      && (q.timeoutPending <==> s == LineIdle || (p.timeoutPending && s != TimeoutTest))
  {
    hide And, SizeAccepted, Get;
  }

  /** MAIN: over any run a timeout is due exactly if the line has gone idle since the last was served. */
  lemma {:induction false} TimeoutDueIff(p: Port, run: seq<Step>)
    requires Inv(p) && Clean(p, run)
    ensures Run(p, run).timeoutPending <==>
      (p.timeoutPending && TimeoutTest !in run)
      || exists i :: 0 <= i < |run| && run[i] == LineIdle && TimeoutTest !in run[i..]
    decreases |run|
  {
    if run != [] {
      var rest := run[1..];
      StepKeepsInv(p, run[0]);
      StepAnnounces(p, run[0]);
      hide Inv, Next, Clean;
      TimeoutDueIff(Next(p, run[0]), rest);
      IdleSince(run);
    }
  }

  lemma IdleSince(run: seq<Step>)
    requires run != []
    ensures TimeoutTest in run <==> run[0] == TimeoutTest || TimeoutTest in run[1..]
    ensures (exists i :: 0 <= i < |run| && run[i] == LineIdle && TimeoutTest !in run[i..])
      <==> (run[0] == LineIdle && TimeoutTest !in run[1..])
           || exists i :: 0 <= i < |run[1..]| && run[1..][i] == LineIdle && TimeoutTest !in run[1..][i..]
  {
    var rest := run[1..];
    assert run == [run[0]] + rest;
    if i :| 0 <= i < |rest| && rest[i] == LineIdle && TimeoutTest !in rest[i..] {
      assert run[i + 1..] == rest[i..] && run[i + 1] == LineIdle;
    }
    if i :| 0 <= i < |run| && run[i] == LineIdle && TimeoutTest !in run[i..] {
      if i > 0 {
        assert rest[i - 1..] == run[i..] && rest[i - 1] == LineIdle;
      } else {
        assert run[0..] == run;
      }
    }
    if run[0] == LineIdle && TimeoutTest !in rest {
      assert run[0..] == run && TimeoutTest !in run;
    }
  }

  /** MAIN: over any interleaving without overrun, what readers got is a prefix of what arrived. */
  lemma DeliveredIsPrefix(buffer: seq<byte>, frame: nat, run: seq<Step>)
    requires SizeAccepted(|buffer|) && |buffer| < TWO32 && frame > 0
    requires Clean(Open(buffer, frame), run)
    ensures Run(Open(buffer, frame), run).delivered <= Bytes(run)
  {
    RunKeepsInv(Open(buffer, frame), run);
    assert [] + Bytes(run) == Bytes(run);
  }

  /** Idle line and interrupt announce all but the lost announcements. */
  lemma AllAnnounced(p: Port)
    requires Inv(p)
    ensures var q := OnTimeoutTest(OnFrameTest(p.(timeoutPending := true)));
      && Inv(q) && q.buffer == p.buffer && q.received == p.received && q.delivered == p.delivered
      && 0 <= Published(q) == |p.received| - p.lost
  {
    var p1 := p.(timeoutPending := true);
    assert Inv(p1);
    InterruptKeepsInv(p1);
    InterruptKeepsInv(OnFrameTest(p1));
    hide Intact, SizeAccepted, U32;
  }

  /** A read as long as the ring takes all that was announced. */
  lemma ReadsAllAnnounced(p: Port, len: nat)
    requires Inv(p) && len >= |p.buffer|
    ensures Next(p, Read(len)).delivered == p.received[..Published(p)]
  {
    CountersAgree(p);
    ReadKeepsInv(p, len);
    hide And, Get, Intact, SizeAccepted, U32;
    var q := OnRead(p, len);
    assert q.delivered <= p.received && |q.delivered| == Published(p);
  }

  /** After idle line, interrupt and one large read only lost announcements are withheld. */
  lemma QuietLineDrains(p: Port, len: nat)
    requires Inv(p) && len >= |p.buffer|
    ensures var run := [LineIdle, FrameTest, TimeoutTest, Read(len)];
      && Clean(p, run)
      && p.lost <= |p.received|
      && Run(p, run).delivered == p.received[..|p.received| - p.lost]
  {
    AllAnnounced(p);
    hide Inv, OnFrameTest, OnTimeoutTest, OnRead, Published, Clean, Run;
    RunOfFour(p, LineIdle, FrameTest, TimeoutTest, Read(len));
    ReadsAllAnnounced(OnTimeoutTest(OnFrameTest(p.(timeoutPending := true))), len);
  }

  lemma RunStep(p: Port, s: Step, rest: seq<Step>)
    requires Inv(p) && !s.Byte?
    ensures Inv(Next(p, s))
    ensures Clean(Next(p, s), rest) ==> Clean(p, [s] + rest) && Run(p, [s] + rest) == Run(Next(p, s), rest)
  {
    StepKeepsInv(p, s);
    hide Inv, Next;
    var run := [s] + rest;
    assert run[0] == s && run[1..] == rest;
    assert NoOverrun(p, run[0]);
  }

  lemma RunOfFour(p: Port, s: Step, t: Step, u: Step, v: Step)
    requires Inv(p) && !s.Byte? && !t.Byte? && !u.Byte? && !v.Byte?
    ensures Clean(p, [s, t, u, v])
    ensures Inv(Next(p, s)) && Inv(Next(Next(p, s), t)) && Inv(Next(Next(Next(p, s), t), u))
    ensures Run(p, [s, t, u, v]) == Next(Next(Next(Next(p, s), t), u), v)
  {
    hide Inv, Next;
    RunStep(p, s, [t, u, v]);
    var p1 := Next(p, s);
    RunStep(p1, t, [u, v]);
    var p2 := Next(p1, t);
    RunStep(p2, u, [v]);
    RunStep(Next(p2, u), v, []);
    assert [v] + [] == [v] && [u] + [v] == [u, v] && [t] + [u, v] == [t, u, v] && [s] + [t, u, v] == [s, t, u, v];
  }

  // ---------- lost announcements ----------

  /** Some step of the run loses an announcement. */
  ghost predicate Loses(p: Port, run: seq<Step>)
    requires Inv(p) && Clean(p, run)
    decreases |run|
  {
    run != [] && (StepKeepsInv(p, run[0]); LosesFrame(p, run[0]) || Loses(Next(p, run[0]), run[1..]))
  }

  lemma {:induction false} LostOverRun(p: Port, run: seq<Step>)
    requires Inv(p) && Clean(p, run)
    ensures Inv(Run(p, run))
    ensures Run(p, run).lost >= p.lost && |Run(p, run).buffer| == |p.buffer| && Run(p, run).frame == p.frame
    ensures Run(p, run).lost == p.lost <==> !Loses(p, run)
    decreases |run|
  {
    if run != [] {
      assert p.frame > 0;
      StepKeepsInv(p, run[0]);
      StepLoses(p, run[0]);
      hide Inv, Next, LosesFrame;
      LostOverRun(Next(p, run[0]), run[1..]);
    }
  }

  lemma {:induction false} RunsJoin(p: Port, run: seq<Step>, more: seq<Step>)
    requires Inv(p) && Clean(p, run) && Inv(Run(p, run)) && Clean(Run(p, run), more)
    ensures Clean(p, run + more) && Run(p, run + more) == Run(Run(p, run), more)
    decreases |run|
  {
    if run == [] {
      assert run + more == more;
    } else {
      StepKeepsInv(p, run[0]);
      hide Inv, Next, NoOverrun;
      assert (run + more)[0] == run[0] && (run + more)[1..] == run[1..] + more;
      RunsJoin(Next(p, run[0]), run[1..], more);
    }
  }

  /** Idle line, interrupt, and one read of everything. */
  function Drain(len: nat): seq<Step> {
    [LineIdle, FrameTest, TimeoutTest, Read(len)]
  }

  /**
   MAIN: once the line is quiet, the interrupt was served and the ring was read out, readers have got every
   byte that arrived exactly when, with a completed frame still unannounced, no timeout was served and no
   other frame completed.
   */
  lemma DrainsAllIff(buffer: seq<byte>, frame: nat, run: seq<Step>, len: nat)
    requires SizeAccepted(|buffer|) && |buffer| < TWO32 && frame > 0 && len >= |buffer|
    requires Clean(Open(buffer, frame), run)
    ensures var p := Open(buffer, frame);
      && Clean(p, run + Drain(len))
      && (Run(p, run + Drain(len)).delivered == Bytes(run) <==> !Loses(p, run))
  {
    var p := Open(buffer, frame);
    LostOverRun(p, run);
    RunKeepsInv(p, run);
    var q := Run(p, run);
    assert [] + Bytes(run) == Bytes(run);
    QuietLineDrains(q, len);
    hide Inv, Next;
    RunsJoin(p, run, Drain(len));
  }

  /** Steps of other than the handler's two tests. */
  predicate NoTests(run: seq<Step>) {
    FrameTest !in run && TimeoutTest !in run
  }

  /** What arrives between two services: one frame raises the flag, a further one is lost. */
  lemma {:induction false} BetweenTests(p: Port, mid: seq<Step>)
    requires Inv(p) && Clean(p, mid) && NoTests(mid)
    ensures var q := Run(p, mid);
      var n := p.hwCount + |Bytes(mid)|;
      && Inv(q) && q.lost >= p.lost
      && (q.timeoutPending <==> p.timeoutPending || LineIdle in mid)
      && (q.rxPending <==> p.rxPending || n >= p.frame)
      && (q.lost > p.lost <==> (p.rxPending && n >= p.frame) || n >= 2 * p.frame)
    decreases |mid|
  {
    assert p.hwCount < p.frame;
    if mid != [] {
      var s, rest := mid[0], mid[1..];
      assert s in mid && forall t :: t in rest ==> t in mid;
      assert forall t :: t in mid ==> t == s || t in rest;
      StepKeepsInv(p, s);
      FlagsAfter(p, s);
      hide Next, Inv;
      BetweenTests(Next(p, s), rest);
    }
  }

  lemma FlagsAfter(p: Port, s: Step)
    requires Inv(p) && s != FrameTest && s != TimeoutTest
    ensures var q := Next(p, s);
      && q.frame == p.frame && (q.timeoutPending <==> p.timeoutPending || s == LineIdle)
      && q.lost == p.lost + (if LosesFrame(p, s) then p.frame else 0)
      && (if s.Byte? && p.hwCount + 1 == p.frame then q.rxPending && q.hwCount == 0
          else q.rxPending == p.rxPending && q.hwCount == p.hwCount + if s.Byte? then 1 else 0)
  {
    hide And, SizeAccepted, Get;
  }

  /**
   MAIN: one service of the interrupt, its two tests with anything between them, loses an announcement exactly
   when the bytes arriving between the tests complete two frames, or complete one and the line went idle
   before the second test.
   */
  lemma ServiceLosesIff(p: Port, mid: seq<Step>)
    requires Inv(p) && NoTests(mid) && Clean(p, [FrameTest] + mid + [TimeoutTest])
    ensures var n := p.hwCount + |Bytes(mid)|;
      Run(p, [FrameTest] + mid + [TimeoutTest]).lost != p.lost
      <==> n >= 2 * p.frame || ((p.timeoutPending || LineIdle in mid) && n >= p.frame)
  {
    var run := [FrameTest] + mid + [TimeoutTest];
    assert run[0] == FrameTest && run[1..] == mid + [TimeoutTest];
    StepKeepsInv(p, FrameTest);
    StepLoses(p, FrameTest);
    var q := Next(p, FrameTest);
    assert !q.rxPending && q.hwCount == p.hwCount && q.timeoutPending == p.timeoutPending;
    assert p.frame > 0;
    hide Next, Inv;
    CleanSplits(q, mid, [TimeoutTest]);
    BetweenTests(q, mid);
    var r := Run(q, mid);
    StepKeepsInv(r, TimeoutTest);
    StepLoses(r, TimeoutTest);
    LostOverRun(q, mid);
    LastStep(r, TimeoutTest);
  }

  lemma LastStep(p: Port, s: Step)
    requires Inv(p) && NoOverrun(p, s) && Inv(Next(p, s))
    ensures Clean(p, [s]) && Run(p, [s]) == Next(p, s)
  {
    hide Next, Inv;
    assert [s][0] == s && [s][1..] == [];
  }

  lemma {:induction false} CleanSplits(p: Port, run: seq<Step>, more: seq<Step>)
    requires Inv(p) && Clean(p, run + more)
    ensures Clean(p, run) && Inv(Run(p, run)) && Clean(Run(p, run), more)
    ensures Run(p, run + more) == Run(Run(p, run), more)
    decreases |run|
  {
    if run == [] {
      assert run + more == more;
    } else {
      assert (run + more)[0] == run[0] && (run + more)[1..] == run[1..] + more;
      StepKeepsInv(p, run[0]);
      hide Inv, Next, NoOverrun;
      CleanSplits(Next(p, run[0]), run[1..], more);
    }
  }

  lemma BytesStep(s: Step, rest: seq<Step>)
    ensures Bytes([s] + rest) == (if s.Byte? then [s.b] else []) + Bytes(rest)
  {
    assert ([s] + rest)[1..] == rest;
  }

  /** A loss from a newly opened port: one-byte frames, the line idle, and a byte between the two tests. */
  lemma LossHappens(buffer: seq<byte>, b: byte, len: nat)
    requires SizeAccepted(|buffer|) && |buffer| < TWO32 && len >= |buffer|
    ensures var p := Open(buffer, 1);
      var run := [LineIdle, FrameTest, Byte(b), TimeoutTest];
      && Clean(p, run + Drain(len)) && Bytes(run) == [b]
      && Run(p, run + Drain(len)).delivered == []
  {
    var p := Open(buffer, 1);
    var run := [LineIdle, FrameTest, Byte(b), TimeoutTest];
    LossRun(buffer, b);
    LossBytes(b);
    OpenKeepsInv(buffer, 1);
    hide *;
    RunKeepsInv(p, run);
    LostOverRun(p, run);
    QuietLineDrains(Run(p, run), len);
    RunsJoin(p, run, Drain(len));
  }

  lemma LossBytes(b: byte)
    ensures Bytes([LineIdle, FrameTest, Byte(b), TimeoutTest]) == [b]
  {
    BytesStep(TimeoutTest, []);
    BytesStep(Byte(b), [TimeoutTest]);
    BytesStep(FrameTest, [Byte(b), TimeoutTest]);
    BytesStep(LineIdle, [FrameTest, Byte(b), TimeoutTest]);
    assert [TimeoutTest] + [] == [TimeoutTest] && [Byte(b)] + [TimeoutTest] == [Byte(b), TimeoutTest];
    assert [FrameTest] + [Byte(b), TimeoutTest] == [FrameTest, Byte(b), TimeoutTest];
    assert [LineIdle] + [FrameTest, Byte(b), TimeoutTest] == [LineIdle, FrameTest, Byte(b), TimeoutTest];
  }

  lemma OpenKeepsInv(buffer: seq<byte>, frame: nat)
    requires SizeAccepted(|buffer|) && |buffer| < TWO32 && frame > 0
    ensures var p := Open(buffer, frame);
      Inv(p) && p.buffer == buffer && p.received == [] && p.delivered == [] && p.lost == 0
      && p.bufIn == p.bufOut == p.hwCount == 0 && !p.rxPending && !p.timeoutPending
  {
    hide And, SizeAccepted;
  }

  lemma LossRun(buffer: seq<byte>, b: byte)
    requires SizeAccepted(|buffer|) && |buffer| < TWO32
    ensures var p := Open(buffer, 1);
      var run := [LineIdle, FrameTest, Byte(b), TimeoutTest];
      Clean(p, run) && Run(p, run).lost == 1 && Run(p, run).delivered == []
  {
    var p := Open(buffer, 1);
    StepKeepsInv(p, LineIdle);
    var q := Next(p, LineIdle);
    StepKeepsInv(q, FrameTest);
    var r := Next(q, FrameTest);
    StepKeepsInv(r, Byte(b));
    var s := Next(r, Byte(b));
    StepKeepsInv(s, TimeoutTest);
    assert Next(s, TimeoutTest).lost == 1 && Next(s, TimeoutTest).delivered == [];
    hide Next, Inv;
    LastStep(s, TimeoutTest);
    OneMore(r, Byte(b), [TimeoutTest]);
    OneMore(q, FrameTest, [Byte(b)] + [TimeoutTest]);
    OneMore(p, LineIdle, [FrameTest] + ([Byte(b)] + [TimeoutTest]));
    assert [LineIdle] + ([FrameTest] + ([Byte(b)] + [TimeoutTest])) == [LineIdle, FrameTest, Byte(b), TimeoutTest];
  }

  lemma OneMore(p: Port, s: Step, rest: seq<Step>)
    requires Inv(p) && NoOverrun(p, s) && Inv(Next(p, s)) && Clean(Next(p, s), rest)
    ensures Clean(p, [s] + rest) && Run(p, [s] + rest) == Run(Next(p, s), rest)
  {
    hide Inv, Next;
    assert ([s] + rest)[0] == s && ([s] + rest)[1..] == rest;
  }

  /** And one without any timeout: two one-byte frames before the interrupt is served. */
  lemma TwoFramesMerge(buffer: seq<byte>, a: byte, b: byte, len: nat)
    requires SizeAccepted(|buffer|) && 2 <= |buffer| < TWO32 && len >= |buffer|
    ensures var p := Open(buffer, 1);
      var run := [Byte(a), Byte(b)];
      && Clean(p, run + Drain(len)) && Bytes(run) == [a, b]
      && Run(p, run + Drain(len)).delivered == [a]
  {
    var p := Open(buffer, 1);
    var run := [Byte(a), Byte(b)];
    MergeRun(buffer, a, b);
    OpenKeepsInv(buffer, 1);
    hide *;
    MergeBytes(a, b);
    RunKeepsInv(p, run);
    LostOverRun(p, run);
    QuietLineDrains(Run(p, run), len);
    RunsJoin(p, run, Drain(len));
    assert [a, b][..1] == [a];
  }

  lemma MergeBytes(a: byte, b: byte)
    ensures Bytes([Byte(a), Byte(b)]) == [a, b]
  {
    BytesStep(Byte(b), []);
    BytesStep(Byte(a), [Byte(b)]);
    assert [Byte(b)] + [] == [Byte(b)] && [Byte(a)] + [Byte(b)] == [Byte(a), Byte(b)];
  }

  lemma MergeRun(buffer: seq<byte>, a: byte, b: byte)
    requires SizeAccepted(|buffer|) && 2 <= |buffer| < TWO32
    ensures var p := Open(buffer, 1);
      Clean(p, [Byte(a), Byte(b)]) && Run(p, [Byte(a), Byte(b)]).lost == 1
      && Run(p, [Byte(a), Byte(b)]).received == [a, b]
  {
    var p := Open(buffer, 1);
    StepKeepsInv(p, Byte(a));
    var q := Next(p, Byte(a));
    StepKeepsInv(q, Byte(b));
    assert Next(q, Byte(b)).lost == 1 && Next(q, Byte(b)).received == [a, b];
    hide Next, Inv;
    LastStep(q, Byte(b));
    OneMore(p, Byte(a), [Byte(b)]);
    assert [Byte(a)] + [Byte(b)] == [Byte(a), Byte(b)];
  }
}
