/** The UART driver object over a real ring buffer, proved against `UartQueue`. */
module UartDev {
  import opened CInt
  import opened Bits
  import opened UartQueue

  /** `s` with `x` written over it from position `to`. */
  ghost function Patched(s: seq<byte>, to: nat, x: seq<byte>): seq<byte>
    requires to + |x| <= |s|
  {
    s[..to] + x + s[to + |x|..]
  }

  method MemCpy(dst: array<byte>, to: nat, src: array<byte>, from: nat, n: nat)
    requires dst != src && to + n <= dst.Length && from + n <= src.Length
    modifies dst
    ensures dst[..] == Patched(old(dst[..]), to, src[from..from + n])
  {
    var i := 0;
    while i < n
      invariant 0 <= i <= n
      invariant forall k :: 0 <= k < dst.Length ==>
        dst[k] == if to <= k < to + i then src[from + (k - to)] else old(dst[k])
    {
      dst[to + i] := src[from + i];
      i := i + 1;
    }
  }

  /** Two copies in turn: `a` at the start, then `b` behind it. */
  lemma PatchedTwice(s: seq<byte>, a: seq<byte>, b: seq<byte>)
    requires |a| + |b| <= |s|
    ensures |Patched(s, 0, a)| == |s|
    ensures var all := Patched(Patched(s, 0, a), |a|, b);
      all[..|a| + |b|] == a + b && all[|a| + |b|..] == s[|a| + |b|..]
  {
  }

  /** A read step spelled out. */
  lemma ReadStep(p: Port, len: nat)
    requires Inv(p)
    ensures Length(p) <= |p.buffer| && And(p.bufOut, |p.buffer| - 1) < |p.buffer|
    ensures Next(p, Read(len)) == OnRead(p, len) && Inv(OnRead(p, len))
    ensures Taken(p, len) == Min(len, Published(p) - |p.delivered|)
    ensures |p.delivered| + Taken(p, len) <= |p.received|
    ensures Get(p, len) == p.received[|p.delivered|..|p.delivered| + Taken(p, len)]
  {
    CountersAgree(p);
    GetIsNextBytes(p, len);
    ReadKeepsInv(p, len);
    assert |p.buffer| > 0;
    hide And, Intact, SizeAccepted, Get;
  }

  lemma SlotOfNext(p: Port)
    requires Inv(p)
    ensures |p.buffer| > 0
    ensures U32(p.bufIn + p.hwCount + p.lost + if p.rxPending then p.frame else 0) % |p.buffer| == |p.received| % |p.buffer|
  {
    hide And, Intact, U32;
    U32Adds(Published(p), p.hwCount + p.lost + if p.rxPending then p.frame else 0);
    RingIndex(|p.received|, |p.buffer|);
  }

  lemma InRange(p: Port)
    requires Inv(p)
    ensures U32(p.bufIn) == p.bufIn
  {
    hide And, Intact, SizeAccepted;
  }

  class UartBus {
    const buffer: array<byte>
    const frame: nat
    var bufIn: nat
    var bufOut: nat
    // the receive hardware
    var hwCount: nat
    var rxPending: bool
    var timeoutPending: bool
    var lost: nat
    ghost var received: seq<byte>
    ghost var delivered: seq<byte>

    ghost function View(): Port
      reads this, buffer
    {
      Port(buffer[..], bufIn, bufOut, frame, hwCount, rxPending, timeoutPending, received, delivered, lost)
    }

    constructor (cbuf: array<byte>, frame: nat)
      ensures View() == Open(cbuf[..], frame) && buffer == cbuf
    {
      buffer, this.frame := cbuf, frame;
      bufIn, bufOut, hwCount, rxPending, timeoutPending := 0, 0, 0, false, false;
      received, delivered, lost := [], [], 0;
    }

    /** The hardware receives a byte. */
    method DmaByte(b: byte)
      requires Inv(View()) && NoOverrun(View(), Byte(b))
      modifies this`received, this`hwCount, this`rxPending, this`lost, buffer
      ensures View() == OnByte(old(View()), b)
      ensures Inv(View())
    {
      ghost var p := View();
      StepKeepsInv(p, Byte(b));
      var at := DmaSlot();
      buffer[at] := b;
      received := received + [b];
      if hwCount + 1 == frame {
        if rxPending {
          lost := lost + frame;
        }
        hwCount := 0;
        rxPending := true;
      } else {
        hwCount := hwCount + 1;
      }
      assert buffer[..] == p.buffer[|p.received| % |p.buffer| := b];
    }

    /** The DMA address: bytes announced plus bytes pending, round the ring. */
    method DmaSlot() returns (at: nat)
      requires Inv(View())
      ensures at == |received| % buffer.Length
    {
      hide Inv, U32;
      SlotOfNext(View());
      var pending := if rxPending then frame else 0;
      at := U32(bufIn + hwCount + lost + pending) % buffer.Length;
    }

    /** `UT0_isr_fun`, its test for a full frame. */
    method IsrFrame()
      requires Inv(View())
      modifies this`bufIn, this`rxPending
      ensures View() == OnFrameTest(old(View())) && Inv(View())
    {
      InterruptKeepsInv(View());
      hide Inv;
      if rxPending {
        rxPending := false;
        bufIn := U32(bufIn + frame);
      }
    }

    /** And its test for a receive timeout, which clears the frame flag as well. */
    method IsrTimeout()
      requires Inv(View())
      modifies this`bufIn, this`hwCount, this`rxPending, this`timeoutPending, this`lost
      ensures View() == OnTimeoutTest(old(View())) && Inv(View())
    {
      InterruptKeepsInv(View());
      InRange(View());
      hide Inv, U32;
      if timeoutPending {
        timeoutPending := false;
        if rxPending {
          lost := lost + frame;
        }
        rxPending := false;
        var rxLen := hwCount;
        hwCount := 0;
        if rxLen != 0 {
          bufIn := U32(bufIn + rxLen);
        }
      }
    }

    /** The two copies out of the ring: up to its end, then from its start. */
    method RingCopy(out: array<byte>, at: nat, n: nat)
      requires at < buffer.Length && n <= buffer.Length && n <= out.Length && out != buffer
      modifies out
      ensures var first := Min(n, buffer.Length - at);
        out[..n] == buffer[..][at..at + first] + buffer[..][..n - first]
      ensures out[n..] == old(out[..])[n..]
    {
      hide Patched;
      var first := Min(n, buffer.Length - at);
      PatchedTwice(out[..], buffer[at..at + first], buffer[0..n - first]);
      MemCpy(out, 0, buffer, at, first);
      MemCpy(out, first, buffer, 0, n - first);
    }

    /** The bytes to take, copied to `out`; the counters are not touched yet. */
    method Fetch(out: array<byte>, len: nat) returns (n: nat)
      requires Inv(View()) && out != buffer && out.Length >= len
      requires Length(View()) <= buffer.Length && And(bufOut, buffer.Length - 1) < buffer.Length
      modifies out
      ensures n == Taken(View(), len) && out[..n] == Get(View(), len)
      ensures out[n..] == old(out[..])[n..]
    {
      hide And, Intact, Inv, SizeAccepted, Published, U32;
      n := Min(len, U32(bufIn - bufOut));
      RingCopy(out, And(bufOut, buffer.Length - 1), n);
    }

    /** Copies up to `len` unread bytes to `out`; returns how many. */
    method KfifoGet(out: array<byte>, len: nat) returns (n: nat)
      requires Inv(View()) && out != buffer && out.Length >= len
      modifies this`bufOut, this`delivered, out
      ensures n == Min(len, Published(old(View())) - |old(delivered)|)
      ensures out[..n] == old(received)[|old(delivered)|..|old(delivered)| + n]
      ensures out[n..] == old(out[..])[n..]
      ensures delivered == old(delivered) + out[..n] && View() == Next(old(View()), Read(len))
      ensures Inv(View())
    {
      ghost var p := View();
      hide And, Intact, Inv, SizeAccepted, U32, Next, Get, Length, Published;
      ReadStep(p, len);
      n := Fetch(out, len);
      bufOut := U32(bufOut + n);
      delivered := delivered + out[..n];
    }

    /** `UT0_read_buf` in DMA mode; waiting on the semaphore does not change the ring. */
    method ReadBuf(out: array<byte>, len: nat) returns (n: nat)
      requires Inv(View()) && out != buffer && out.Length >= len
      modifies this`bufOut, this`delivered, out
      ensures n == Min(len, Published(old(View())) - |old(delivered)|)
      ensures delivered == old(delivered) + out[..n] <= received
      ensures Inv(View())
    {
      if len == 0 {
        return 0;
      }
      n := KfifoGet(out, len);
    }
  }

  /**
   `uart_dev_open`: refused when no port is idle, or for a ring whose size is not a power of two; a port
   opened without a ring has no receive queue.
   */
  method DevOpen(idle: bool, cbuf: array?<byte>, frame: nat) returns (ok: bool, bus: UartBus?)
    requires cbuf != null ==> cbuf.Length < TWO32 && frame > 0
    ensures ok <==> idle && (cbuf != null ==> IsPow2(cbuf.Length))
    ensures bus != null <==> ok && cbuf != null
    ensures bus != null ==> fresh(bus) && bus.buffer == cbuf && Inv(bus.View()) && bus.received == []
  {
    ok, bus := false, null;
    if !idle {
      return;
    }
    if cbuf != null {
      AcceptedSizes(cbuf.Length);
      if cbuf.Length == 0 || And(cbuf.Length, cbuf.Length - 1) != 0 {
        return;
      }
      bus := new UartBus(cbuf, frame);
    }
    ok := true;
  }
}
