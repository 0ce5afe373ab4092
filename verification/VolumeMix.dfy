/** The multi-channel gain stage: a ramped loop frame by frame, and a strided loop channel by channel. */
module VolumeMix {
  import opened CInt
  import opened Bits
  import VolumeRamp

  /** `len * 5462 >> 14` in 32 bits, used as a third of `len`. */
  function Third(len: nat): nat {
    U32(len * 5462) / 16384
  }

  /** It is a third exactly while the accumulated error stays below one. */
  lemma ThirdIff(len: nat)
    requires len < TWO32
    ensures Third(len) == len / 3 <==> 2 * (len / 3) + 5462 * (len % 3) < 16384
  {
    var q, r := len / 3, len % 3;
    assert len * 5462 == q * 16384 + (2 * q + 5462 * r);
    if len >= 786337 {
      assert 2 * q + 5462 * r >= 16384;
      WrappedThird(len);
    }
  }

  /** Once the product wraps it is too small to be a third. */
  lemma WrappedThird(len: nat)
    requires len >= 786337
    ensures Third(len) != len / 3
  {
    if len < 786432 {
      assert U32(len * 5462) == len * 5462 - TWO32;
    } else {
      assert Third(len) < 262144 <= len / 3;
    }
  }

  /** In particular below 8192, and for multiples of three below 24576. */
  lemma ThirdRange(len: nat)
    requires len < 8192 || (len % 3 == 0 && len < 24576)
    ensures Third(len) == len / 3
  {
    ThirdIff(len);
  }

  /** A sample times gain, shifted down (towards minus infinity) and saturated. */
  function MixScale(x: int, gain: int): int {
    VolumeRamp.Clamp(x * gain / 16384)
  }

  function ScaleAll(data: seq<int>, gain: int): (r: seq<int>)
    ensures |r| == |data|
  {
    seq(|data|, i requires 0 <= i < |data| => MixScale(data[i], gain))
  }

  /** The ramped loop on a frame-interleaved buffer: one gain move per frame of `ch` samples. */
  function Ramped(data: seq<int>, ch: nat, now: int, dest: int, step: nat): seq<int>
    requires ch > 0
    decreases |data|
  {
    if |data| < ch then []
    else
      var g := VolumeRamp.Move(now, dest, step);
      ScaleAll(data[..ch], g) + Ramped(data[ch..], ch, g, dest, step)
  }

  function GainAfter(frames: nat, now: int, dest: int, step: nat): int {
    if frames == 0 then now else GainAfter(frames - 1, VolumeRamp.Move(now, dest, step), dest, step)
  }

  lemma GainStays(frames: nat, gain: int, step: nat)
    ensures GainAfter(frames, gain, gain, step) == gain
  {
  }

  lemma {:induction false} GainAdds(j: nat, k: nat, now: int, dest: int, step: nat)
    ensures GainAfter(j + k, now, dest, step) == GainAfter(k, GainAfter(j, now, dest, step), dest, step)
    decreases j
  {
    if j > 0 {
      GainAdds(j - 1, k, VolumeRamp.Move(now, dest, step), dest, step);
      assert j - 1 + k == j + k - 1;
    }
  }

  lemma RampedUnfolds(data: seq<int>, ch: nat, now: int, dest: int, step: nat)
    requires 0 < ch <= |data|
    ensures var g := VolumeRamp.Move(now, dest, step);
      Ramped(data, ch, now, dest, step) == ScaleAll(data[..ch], g) + Ramped(data[ch..], ch, g, dest, step)
  {
  }

  /** MAIN: two buffers of whole frames run in turn are their concatenation run at once. */
  lemma {:induction false} MixConcatenates(a: seq<int>, b: seq<int>, frames: nat, ch: nat, now: int, dest: int, step: nat)
    requires 0 < ch && |a| == Span(frames, ch)
    ensures Ramped(a + b, ch, now, dest, step)
         == Ramped(a, ch, now, dest, step) + Ramped(b, ch, GainAfter(frames, now, dest, step), dest, step)
    decreases frames
  {
    hide Ramped, ScaleAll, Span;
    SpanZero(ch);
    if frames == 0 {
      assert a + b == b;
      RampedNone(a, ch, now, dest, step);
    } else {
      var g := VolumeRamp.Move(now, dest, step);
      SpanStep(frames - 1, ch, frames);
      SpanStep(0, ch, frames);
      RampedUnfolds(a + b, ch, now, dest, step);
      RampedUnfolds(a, ch, now, dest, step);
      assert (a + b)[..ch] == a[..ch] && (a + b)[ch..] == a[ch..] + b;
      MixConcatenates(a[ch..], b, frames - 1, ch, g, dest, step);
      Reassociate(ScaleAll(a[..ch], g), Ramped(a[ch..], ch, g, dest, step),
                  Ramped(b, ch, GainAfter(frames, now, dest, step), dest, step));
    }
  }

  lemma RampedNone(s: seq<int>, ch: nat, now: int, dest: int, step: nat)
    requires ch > 0 && s == []
    ensures Ramped(s, ch, now, dest, step) == []
  {
  }

  lemma ScaleAllAdds(a: seq<int>, b: seq<int>, gain: int)
    ensures ScaleAll(a + b, gain) == ScaleAll(a, gain) + ScaleAll(b, gain)
  {
  }

  /** MAIN: with the ramp finished, the frame-by-frame loop scales every sample by the constant gain. */
  lemma {:induction false} FinishedRampIsConstant(data: seq<int>, ch: nat, gain: int, step: nat)
    requires ch > 0 && |data| % ch == 0
    ensures Ramped(data, ch, gain, gain, step) == ScaleAll(data, gain)
    decreases |data|
  {
    if |data| >= ch {
      WholeFrames(|data|, ch);
      FinishedRampIsConstant(data[ch..], ch, gain, step);
      ScaleAllAdds(data[..ch], data[ch..], gain);
      assert data[..ch] + data[ch..] == data;
    } else {
      WholeFrames(|data|, ch);
      assert data == [];
    }
  }

  lemma WholeFrames(n: nat, ch: nat)
    requires ch > 0 && n % ch == 0
    ensures n < ch ==> n == 0
    ensures n >= ch ==> (n - ch) % ch == 0
  {
    if n >= ch {
      assert n == n / ch * ch;
      assert n - ch == (n / ch - 1) * ch;
      ModZero(n / ch - 1, ch);
    }
  }

  lemma ModZero(q: int, ch: nat)
    requires ch > 0
    ensures q * ch % ch == 0
  {
    ModUnique(q * ch, q, 0, ch);
  }

  /** The first `at` samples are `done`, the rest as in `was`, and what is to come of the first `n` completes `whole`. */
  ghost predicate Ramping(data: seq<int>, was: seq<int>, n: nat, at: nat, ch: nat, now: int, dest: int, step: nat,
                          done: seq<int>, whole: seq<int>)
    requires ch > 0 && at <= n <= |was|
  {
    && |done| == at && data == done + was[at..]
    && whole == done + Ramped(was[..n][at..], ch, now, dest, step)
  }

  lemma RampingStarts(was: seq<int>, n: nat, ch: nat, now: int, dest: int, step: nat)
    requires ch > 0 && n <= |was|
    ensures Ramping(was, was, n, 0, ch, now, dest, step, [], Ramped(was[..n], ch, now, dest, step))
  {
    hide Ramped;
    assert was[..n][0..] == was[..n];
  }

  lemma RampingEnds(data: seq<int>, was: seq<int>, n: nat, ch: nat, now: int, dest: int, step: nat, done: seq<int>, whole: seq<int>)
    requires ch > 0 && n <= |was| && Ramping(data, was, n, n, ch, now, dest, step, done, whole)
    ensures data == whole + was[n..]
    ensures GainAfter(0, now, dest, step) == now
  {
    assert was[..n][n..] == [];
  }

  lemma GainStep(frames: nat, now: int, dest: int, step: nat)
    requires frames > 0
    ensures GainAfter(frames, now, dest, step) == GainAfter(frames - 1, VolumeRamp.Move(now, dest, step), dest, step)
  {
  }

  lemma RampedStep(s: seq<int>, at: nat, ch: nat, now: int, dest: int, step: nat)
    requires 0 < ch && at + ch <= |s|
    ensures var g := VolumeRamp.Move(now, dest, step);
      Ramped(s[at..], ch, now, dest, step) == ScaleAll(s[at..at + ch], g) + Ramped(s[at + ch..], ch, g, dest, step)
  {
    assert s[at..][..ch] == s[at..at + ch] && s[at..][ch..] == s[at + ch..];
  }

  lemma RampedNext(s: seq<int>, n: nat, at: nat, ch: nat, now: int, dest: int, step: nat, done: seq<int>)
    requires 0 < ch && at + ch <= n <= |s|
    ensures var g := VolumeRamp.Move(now, dest, step);
      && done + Ramped(s[..n][at..], ch, now, dest, step)
         == done + ScaleAll(s[at..at + ch], g) + Ramped(s[..n][at + ch..], ch, g, dest, step)
  {
    hide Ramped, ScaleAll;
    var g := VolumeRamp.Move(now, dest, step);
    FrameOf(s, n, at, ch);
    RampedStep(s[..n], at, ch, now, dest, step);
    Reassociate(done, ScaleAll(s[at..at + ch], g), Ramped(s[..n][at + ch..], ch, g, dest, step));
  }

  lemma FrameOf(s: seq<int>, n: nat, at: nat, ch: nat)
    requires at + ch <= n <= |s|
    ensures s[..n][at..at + ch] == s[at..at + ch]
  {
  }

  /** Samples in a number of frames. */
  function Span(frames: nat, ch: nat): nat {
    frames * ch
  }

  /** Scaled: channels before `i`, and channel `i` below sample `at`; all within the first `end` samples. */
  ghost predicate DoneTo(data: seq<int>, was: seq<int>, gain: int, end: nat, ch: nat, i: nat, at: nat)
    requires ch > 0
  {
    |data| == |was| && forall k :: 0 <= k < |data| ==>
      data[k] == if k < end && (k % ch < i || (k % ch == i && k < at)) then MixScale(was[k], gain) else was[k]
  }

  lemma DoneNone(was: seq<int>, gain: int, end: nat, ch: nat)
    requires ch > 0
    ensures DoneTo(was, was, gain, end, ch, 0, 0)
  {
  }

  lemma DoneStart(data: seq<int>, was: seq<int>, gain: int, end: nat, ch: nat, i: nat)
    requires i < ch && DoneTo(data, was, gain, end, ch, i, 0)
    ensures DoneTo(data, was, gain, end, ch, i, i)
  {
    hide MixScale;
    forall k | 0 <= k < i
      ensures k % ch == k
    {
      ModUnique(k, 0, k, ch);
    }
  }

  lemma DoneStep(data: seq<int>, was: seq<int>, gain: int, end: nat, ch: nat, i: nat, at: nat)
    requires i < ch && DoneTo(data, was, gain, end, ch, i, at) && at % ch == i && at < end <= |was|
    ensures data[at] == was[at]
    ensures DoneTo(data[at := MixScale(was[at], gain)], was, gain, end, ch, i, at + ch)
  {
    hide MixScale;
    NextInChannel(at, ch);
  }

  lemma DoneChannel(data: seq<int>, was: seq<int>, gain: int, end: nat, ch: nat, i: nat, at: nat)
    requires i < ch && DoneTo(data, was, gain, end, ch, i, at) && at >= end
    ensures DoneTo(data, was, gain, end, ch, i + 1, 0)
  {
    hide MixScale;
  }

  lemma DoneAll(data: seq<int>, was: seq<int>, gain: int, end: nat, ch: nat)
    requires 0 < ch && end <= |was| && DoneTo(data, was, gain, end, ch, ch, 0)
    ensures data == ScaleAll(was[..end], gain) + was[end..]
  {
    hide MixScale;
  }

  lemma Reassociate(a: seq<int>, b: seq<int>, c: seq<int>)
    ensures a + (b + c) == a + b + c
  {
  }

  // ---------- what a buffer sounds like ----------

  /** `y` is `x` at gain `g` / 16384, rounded down. */
  predicate Softened(x: int, g: int, y: int) {
    16384 * y <= x * g < 16384 * (y + 1)
  }

  /** Full gain leaves a sample as it is, no gain silences it. */
  lemma SoftenedEnds(x: int, y: int)
    ensures Softened(x, 16384, y) <==> x == y
    ensures Softened(x, 0, y) <==> y == 0
  {
  }

  lemma MixSoftens(x: int, gain: int)
    requires VolumeRamp.IsS16(x) && VolumeRamp.InRange(gain)
    ensures Softened(x, gain, MixScale(x, gain))
  {
    VolumeRamp.ProductBound(Abs(x), gain);
    assert x < 0 ==> -x * gain == -(x * gain);
  }

  /** At any gain, a sample that would not fit 16 bits is cut to the nearest value that does. */
  lemma MixSaturates(x: int, gain: int, y: int)
    requires Softened(x, gain, y)
    ensures MixScale(x, gain) == if y > 32767 then 32767 else if y < -32768 then -32768 else y
  {
    Bits.ModUnique(x * gain, y, x * gain - y * 16384, 16384);
  }

  /** The ramp of a mixer is the linear one. */
  lemma {:induction false} GainIsLinear(frames: nat, now: int, dest: int, step: nat)
    requires VolumeRamp.InRange(now) && VolumeRamp.InRange(dest) && step <= 16384
    ensures frames * step >= 0
    ensures GainAfter(frames, now, dest, step) == VolumeRamp.Towards(now, dest, frames * step)
    ensures VolumeRamp.InRange(VolumeRamp.Towards(now, dest, frames * step))
    decreases frames
  {
    if frames > 0 {
      GainIsLinear(frames - 1, now, dest, step);
      GainAdds(frames - 1, 1, now, dest, step);
      VolumeRamp.MoveOn(now, dest, (frames - 1) * step, step);
      assert frames * step == (frames - 1) * step + step;
      var g := GainAfter(frames - 1, now, dest, step);
      assert GainAfter(1, g, dest, step) == GainAfter(0, VolumeRamp.Move(g, dest, step), dest, step);
    }
  }

  /** Sample `k` of a faded buffer is softened by the gain of its frame. */
  lemma {:induction false} RampedAt(data: seq<int>, frames: nat, ch: nat, now: int, dest: int, step: nat, f: nat, j: nat)
    requires 0 < ch && |data| == Span(frames, ch) && f < frames && j < ch
    ensures var out := Ramped(data, ch, now, dest, step);
      |out| == |data| && Span(f, ch) + j < |data|
      && out[Span(f, ch) + j] == MixScale(data[Span(f, ch) + j], GainAfter(f + 1, now, dest, step))
    decreases frames
  {
    hide Ramped, Span, MixScale, GainAfter;
    var g := VolumeRamp.Move(now, dest, step);
    SpanZero(ch);
    SpanStep(f, ch, frames);
    SpanStep(0, ch, frames);
    SpanStep(frames - 1, ch, frames);
    RampedUnfolds(data, ch, now, dest, step);
    GainStep(f + 1, now, dest, step);
    RampedLength(data[ch..], frames - 1, ch, g, dest, step);
    if f > 0 {
      SpanStep(f - 1, ch, frames);
      RampedAt(data[ch..], frames - 1, ch, g, dest, step, f - 1, j);
    } else {
      RampingEnds([], [], 0, 1, g, dest, step, [], []) by {
        RampedNone([], 1, g, dest, step);
      }
    }
  }

  lemma {:induction false} RampedLength(data: seq<int>, frames: nat, ch: nat, now: int, dest: int, step: nat)
    requires 0 < ch && |data| == Span(frames, ch)
    ensures |Ramped(data, ch, now, dest, step)| == |data|
    decreases frames
  {
    hide Ramped, Span;
    SpanZero(ch);
    if frames == 0 {
      RampedNone(data, ch, now, dest, step);
    } else {
      SpanStep(frames - 1, ch, frames);
      SpanStep(0, ch, frames);
      RampedUnfolds(data, ch, now, dest, step);
      RampedLength(data[ch..], frames - 1, ch, VolumeRamp.Move(now, dest, step), dest, step);
    }
  }

  /** Every sample of `frames` frames is softened by its frame's gain. */
  ghost predicate Faded(fade: bool, now: int, dest: int, step: nat, frames: nat, ch: nat, was: seq<int>, out: seq<int>) {
    && |was| == |out| == Span(frames, ch)
    && forall f: nat, j: nat :: f < frames && j < ch ==>
      FitsFrame(f, j, ch, frames)
      && Softened(was[Span(f, ch) + j], VolumeRamp.FrameGain(fade, now, dest, step, f), out[Span(f, ch) + j])
  }

  predicate FitsFrame(f: nat, j: nat, ch: nat, frames: nat) {
    Span(f, ch) + j < Span(frames, ch)
  }

  lemma InFrame(f: nat, j: nat, ch: nat, frames: nat)
    requires f < frames && j < ch
    ensures FitsFrame(f, j, ch, frames)
  {
    SpanStep(f, ch, frames);
  }

  /** MAIN: the ramped loop softens each frame by the gain that many steps on. */
  lemma RampedFades(data: seq<int>, frames: nat, ch: nat, now: int, dest: int, step: nat)
    requires 0 < ch && |data| == Span(frames, ch) && VolumeRamp.Normal(now, dest, step, data)
    ensures Faded(true, now, dest, step, frames, ch, data, Ramped(data, ch, now, dest, step))
  {
    var out := Ramped(data, ch, now, dest, step);
    hide Ramped, Span, MixScale, GainAfter, Softened;
    RampedLength(data, frames, ch, now, dest, step);
    forall f: nat, j: nat | f < frames && j < ch
      ensures FitsFrame(f, j, ch, frames)
      ensures Softened(data[Span(f, ch) + j], VolumeRamp.FrameGain(true, now, dest, step, f), out[Span(f, ch) + j])
    {
      InFrame(f, j, ch, frames);
      RampedAt(data, frames, ch, now, dest, step, f, j);
      GainIsLinear(f + 1, now, dest, step);
      MixSoftens(data[Span(f, ch) + j], GainAfter(f + 1, now, dest, step));
    }
  }

  /** And the strided one by the target. */
  lemma ConstantFades(data: seq<int>, frames: nat, ch: nat, now: int, dest: int, step: nat)
    requires 0 < ch && |data| == Span(frames, ch) && VolumeRamp.Normal(now, dest, step, data)
    ensures Faded(false, now, dest, step, frames, ch, data, ScaleAll(data, dest))
  {
    var out := ScaleAll(data, dest);
    hide Span, MixScale, Softened;
    forall f: nat, j: nat | f < frames && j < ch
      ensures FitsFrame(f, j, ch, frames)
      ensures Softened(data[Span(f, ch) + j], VolumeRamp.FrameGain(false, now, dest, step, f), out[Span(f, ch) + j])
    {
      InFrame(f, j, ch, frames);
      MixSoftens(data[Span(f, ch) + j], dest);
    }
  }

  class Gain {
    var now: int
    const dest: int
    const step: nat
    const fade: bool
    const toggle: bool

    constructor (now: int, dest: int, step: nat, fade: bool, toggle: bool)
      ensures this.now == now && this.dest == dest && this.step == step && this.fade == fade && this.toggle == toggle
    {
      this.now, this.dest, this.step, this.fade, this.toggle := now, dest, step, fade, toggle;
    }

    /** Channel by channel: sample `i`, `i + ch`, `i + 2 * ch`, ... */
    method ConstantGain(data: array<int>, frames: nat, ch: nat)
      requires 0 < ch && Span(frames, ch) <= data.Length
      modifies data
      ensures data[..] == ScaleAll(old(data[..Span(frames, ch)]), now) + old(data[Span(frames, ch)..])
    {
      hide Span, DoneTo;
      ghost var was := data[..];
      var i := 0;
      DoneNone(was, now, Span(frames, ch), ch);
      while i < ch
        invariant 0 <= i <= ch && |was| == data.Length
        invariant DoneTo(data[..], was, now, Span(frames, ch), ch, i, 0)
      {
        ScaleChannel(data, frames, ch, i, was);
        i := i + 1;
      }
      DoneAll(data[..], was, now, Span(frames, ch), ch);
    }

    method ScaleChannel(data: array<int>, frames: nat, ch: nat, i: nat, ghost was: seq<int>)
      requires i < ch && Span(frames, ch) <= data.Length == |was|
      requires DoneTo(data[..], was, now, Span(frames, ch), ch, i, 0)
      modifies data
      ensures DoneTo(data[..], was, now, Span(frames, ch), ch, i + 1, 0)
    {
      hide MixScale, Span, DoneTo;
      var at, j := i, 0;
      SpanZero(ch);
      ghost var end := Span(frames, ch);
      DoneStart(data[..], was, now, end, ch, i);
      while j < frames
        invariant 0 <= j <= frames && at == i + Span(j, ch)
        invariant DoneTo(data[..], was, now, end, ch, i, at)
      {
        SpanStep(j, ch, frames);
        InChannel(i, j, ch);
        DoneStep(data[..], was, now, end, ch, i, at);
        data[at] := MixScale(data[at], now);
        at, j := at + ch, j + 1;
      }
      DoneChannel(data[..], was, now, end, ch, i, at);
    }

    /** Frame by frame, moving the gain once per frame. */
    method RampedGain(data: array<int>, frames: nat, ch: nat)
      requires 0 < ch && Span(frames, ch) <= data.Length
      modifies this`now, data
      ensures data[..] == Ramped(old(data[..Span(frames, ch)]), ch, old(now), dest, step) + old(data[Span(frames, ch)..])
      ensures now == GainAfter(frames, old(now), dest, step)
    {
      hide Ramping, Ramped, ScaleAll, GainAfter, Span;
      ghost var was, n := data[..], Span(frames, ch);
      ghost var whole := Ramped(was[..n], ch, now, dest, step);
      var i, at := 0, 0;
      SpanZero(ch);
      RampingStarts(was, n, ch, now, dest, step);
      ghost var done := [];
      while i < frames
        invariant 0 <= i <= frames && at == Span(i, ch) <= n
        invariant n <= |was| == data.Length && Ramping(data[..], was, n, at, ch, now, dest, step, done, whole)
        invariant GainAfter(frames, old(now), dest, step) == GainAfter(frames - i, now, dest, step)
      {
        SpanStep(i, ch, frames);
        GainStep(frames - i, now, dest, step);
        done := RampNext(data, at, ch, done, was, n, whole);
        at, i := at + ch, i + 1;
      }
      RampingEnds(data[..], was, n, ch, now, dest, step, done, whole);
    }

    /** The body of the ramped loop, with the account of what is done. */
    method RampNext(data: array<int>, at: nat, ch: nat, ghost done: seq<int>, ghost was: seq<int>, ghost n: nat, ghost whole: seq<int>)
      returns (ghost next: seq<int>)
      requires 0 < ch && at + ch <= n <= data.Length == |was|
      requires Ramping(data[..], was, n, at, ch, now, dest, step, done, whole)
      modifies this`now, data
      ensures now == VolumeRamp.Move(old(now), dest, step)
      ensures Ramping(data[..], was, n, at + ch, ch, now, dest, step, next, whole)
    {
      hide Ramped, ScaleAll;
      RampedNext(was, n, at, ch, now, dest, step, done);
      RampFrame(data, at, ch, done, was);
      next := done + ScaleAll(was[at..at + ch], now);
    }

    method MoveGain()
      modifies this`now
      ensures now == VolumeRamp.Move(old(now), dest, step)
    {
      if now < dest {
        now := S16(now + step);
        if now > dest {
          now := dest;
        }
      } else if now > dest {
        now := S16(now - step);
        if now < dest {
          now := dest;
        }
      }
    }

    method RampFrame(data: array<int>, at: nat, ch: nat, ghost done: seq<int>, ghost was: seq<int>)
      requires at + ch <= data.Length == |was| && |done| == at && data[..] == done + was[at..]
      modifies this`now, data
      ensures now == VolumeRamp.Move(old(now), dest, step)
      ensures data[..] == done + ScaleAll(was[at..at + ch], now) + was[at + ch..]
    {
      hide ScaleAll;
      assert data[..at] == done && data[at..at + ch] == was[at..at + ch] && data[at + ch..] == was[at + ch..];
      MoveGain();
      ScaleFrame(data, at, ch);
    }

    /** With no channels the ramped loop only moves the gain. */
    method MoveOnly(frames: nat)
      modifies this`now
      ensures now == GainAfter(frames, old(now), dest, step)
    {
      var i := 0;
      while i < frames
        invariant 0 <= i <= frames
        invariant GainAfter(frames, old(now), dest, step) == GainAfter(frames - i, now, dest, step)
      {
        MoveGain();
        i := i + 1;
      }
    }

    method ScaleFrame(data: array<int>, at: nat, ch: nat)
      requires at + ch <= data.Length
      modifies data
      ensures data[..] == old(data[..at]) + ScaleAll(old(data[at..at + ch]), now) + old(data[at + ch..])
    {
      ghost var was := data[..];
      var j := 0;
      while j < ch
        invariant 0 <= j <= ch
        invariant forall k :: 0 <= k < data.Length ==>
          data[k] == if at <= k < at + j then MixScale(was[k], now) else was[k]
      {
        data[at + j] := MixScale(data[at + j], now);
        j := j + 1;
      }
    }

    /** `user_audio_digital_volume_run` over `len` bytes: a handle switched off or more than four channels are refused. */
    method Run(data: array<int>, len: nat, ch: nat) returns (r: int)
      requires ch <= 4 ==> Span(Frames(len / 2, ch), ch) <= data.Length
      modifies this`now, data
      ensures r == if !toggle || ch > 4 then -1 else 0
      ensures r == -1 ==> data[..] == old(data[..]) && now == old(now)
      ensures r == 0 ==> now == if fade then GainAfter(Frames(len / 2, ch), old(now), dest, step) else dest
      ensures r == 0 && ch == 0 ==> data[..] == old(data[..])
      ensures r == 0 && ch > 0 ==> var n := Span(Frames(len / 2, ch), ch);
        data[..] == (if fade then Ramped(old(data[..n]), ch, old(now), dest, step) else ScaleAll(old(data[..n]), dest))
                    + old(data[n..])
      ensures r == 0 && ch > 0 ==> var n := Span(Frames(len / 2, ch), ch);
        VolumeRamp.Normal(old(now), dest, step, old(data[..n])) ==>
          Faded(fade, old(now), dest, step, Frames(len / 2, ch), ch, old(data[..n]), data[..n])
    {
      ghost var n := Span(Frames(len / 2, ch), ch);
      if 0 < ch <= 4 && VolumeRamp.Normal(now, dest, step, data[..n]) {
        RampedFades(data[..n], Frames(len / 2, ch), ch, now, dest, step);
        ConstantFades(data[..n], Frames(len / 2, ch), ch, now, dest, step);
      }
      hide Ramped, ScaleAll, GainAfter, Span, Faded, VolumeRamp.Normal;
      if !toggle {
        return -1;
      }
      if ch > 4 {
        return -1;
      }
      var fading := now != dest;
      if !fade {
        fading := false;
        now := dest;
      }
      var frames := Frames(len / 2, ch);
      GainStays(frames, dest, step);
      if ch == 0 {
        if fading {
          MoveOnly(frames);
        }
        return 0;
      }
      if fading {
        RampedGain(data, frames, ch);
      } else {
        SpanWhole(frames, ch);
        FinishedRampIsConstant(data[..Span(frames, ch)], ch, now, step);
        ConstantGain(data, frames, ch);
      }
      r := 0;
    }
  }

  lemma SpanWhole(frames: nat, ch: nat)
    requires ch > 0
    ensures Span(frames, ch) % ch == 0
  {
    ModZero(frames, ch);
  }

  /** Frames in `len` samples as the source computes it. */
  function Frames(len: nat, ch: nat): nat {
    if ch == 2 then len / 2 else if ch == 3 then Third(len) else if ch == 4 then len / 4 else len
  }

  lemma InChannel(i: nat, j: nat, ch: nat)
    requires i < ch
    ensures (i + Span(j, ch)) % ch == i
  {
    Remainder(i, j, ch);
  }

  lemma Remainder(i: nat, j: nat, ch: nat)
    requires i < ch
    ensures (i + j * ch) % ch == i
  {
    ModUnique(i + j * ch, j, i, ch);
  }

  /** Between two samples of a channel there is no other of the same channel. */
  lemma NextInChannel(at: nat, ch: nat)
    requires ch > 0
    ensures forall k :: at < k < at + ch ==> k % ch != at % ch
  {
    forall k | at < k < at + ch
      ensures k % ch != at % ch
    {
      var d := k / ch - at / ch;
      assert k == k / ch * ch + k % ch && at == at / ch * ch + at % ch;
      assert d * ch == k / ch * ch - at / ch * ch;
      MultipleIsFar(d, ch);
    }
  }

  lemma SpanZero(ch: nat)
    ensures Span(0, ch) == 0
  {
  }

  lemma SpanStep(i: nat, ch: nat, frames: nat)
    requires i < frames
    ensures Span(i + 1, ch) == Span(i, ch) + ch <= Span(frames, ch)
  {
    assert (i + 1) * ch <= frames * ch;
    assert (i + 1) * ch == i * ch + ch;
  }
}
