/** The digital volume ramp: gain in 1/16384, moved towards a target once per stereo frame. */
module VolumeRamp {
  import Bits
  import opened CInt

  const UNITY := 16384

  datatype Ramp = Ramp(fade: bool, gain: int, target: int, step: nat)

  /** One frame's gain update in the source's 16-bit arithmetic. */
  function Move(gain: int, target: int, step: nat): int {
    if gain > target then
      var g := S16(gain - step);
      if g < target then target else g
    else if gain < target then
      var g := S16(gain + step);
      if g > target then target else g
    else gain
  }

  function Advance(r: Ramp): Ramp {
    r.(gain := if r.fade then Move(r.gain, r.target, r.step) else r.target)
  }

  function AdvanceBy(r: Ramp, k: nat): Ramp {
    if k == 0 then r else Advance(AdvanceBy(r, k - 1))
  }

  predicate InRange(g: int) {
    0 <= g <= UNITY
  }

  /** Where a gain should be after moving `d` towards its target without passing it. */
  function Towards(gain: int, target: int, d: nat): int {
    if gain > target then Max(target, gain - d) else Min(target, gain + d)
  }

  /** The 16-bit update is the ideal one for every gain and target exactly when the step is at most 16384. */
  lemma MoveIdealIff(step: nat)
    requires step < TWO16
    ensures (forall g: int, t: int :: InRange(g) && InRange(t) ==> Move(g, t, step) == Towards(g, t, step)) <==> step <= UNITY
  {
    if step > UNITY {
      assert Move(UNITY - 1, UNITY, step) != Towards(UNITY - 1, UNITY, step);
    }
  }

  /** MAIN: after k frames the distance to the target is max(0, initial - k * step), with no overshoot. */
  lemma {:induction false} RampIsLinear(r: Ramp, k: nat)
    requires r.fade && InRange(r.gain) && InRange(r.target) && r.step <= UNITY
    ensures k * r.step >= 0
    ensures AdvanceBy(r, k) == r.(gain := Towards(r.gain, r.target, k * r.step))
    ensures Abs(AdvanceBy(r, k).gain - r.target) == Max(0, Abs(r.gain - r.target) - k * r.step)
    ensures InRange(AdvanceBy(r, k).gain)
  {
    MoveOn(r.gain, r.target, 0, r.step);
    if k > 0 {
      RampIsLinear(r, k - 1);
      assert k * r.step == (k - 1) * r.step + r.step;
      MoveOn(r.gain, r.target, (k - 1) * r.step, r.step);
    }
  }

  lemma S16Same(x: int)
    requires IsS16(x)
    ensures S16(x) == x
  {
  }

  lemma MoveOn(gain: int, target: int, d: nat, step: nat)
    requires InRange(gain) && InRange(target) && step <= UNITY
    ensures InRange(Towards(gain, target, d))
    ensures Move(Towards(gain, target, d), target, step) == Towards(gain, target, d + step)
    ensures Abs(Towards(gain, target, d) - target) == Max(0, Abs(gain - target) - d)
  {
    hide S16;
    var g := Towards(gain, target, d);
    if g > target {
      S16Same(g - step);
    } else if g < target && g + step < 0x8000 {
      S16Same(g + step);
    }
  }

  lemma {:induction false} AdvanceAdds(r: Ramp, j: nat, k: nat)
    ensures AdvanceBy(r, j + k) == AdvanceBy(AdvanceBy(r, j), k)
    decreases k
  {
    if k > 0 {
      AdvanceAdds(r, j, k - 1);
      assert j + k - 1 == j + (k - 1);
    }
  }

  predicate IsS16(x: int) {
    -0x8000 <= x < 0x8000
  }

  /** A sample scaled by magnitude, then clamped to 16 bits. */
  function Scale(x: int, gain: int): int {
    Clamp(Magnify(x, gain))
  }

  function Magnify(x: int, gain: int): int {
    if x < 0 then -((-x * gain) / UNITY) else x * gain / UNITY
  }

  function Clamp(x: int): int {
    if x < -32768 then -32768 else if x > 32767 then 32767 else x
  }

  lemma ProductBound(m: nat, gain: int)
    requires InRange(gain)
    ensures 0 <= m * gain <= m * UNITY
  {
  }

  /** Scaling never makes a sample larger, never flips its sign, and never reaches the clamps. */
  lemma ScaleShrinks(x: int, gain: int)
    requires IsS16(x) && InRange(gain)
    ensures Scale(x, gain) == Magnify(x, gain)
    ensures 0 <= x ==> 0 <= Scale(x, gain) <= x
    ensures x <= 0 ==> x <= Scale(x, gain) <= 0
  {
    ProductBound(Abs(x), gain);
  }

  /** Result of running a buffer of interleaved stereo samples: every pair after one more gain step. */
  function RunOn(r: Ramp, buf: seq<int>): (out: seq<int>)
    requires |buf| % 2 == 0
    ensures |out| == |buf|
  {
    seq(|buf|, i requires 0 <= i < |buf| => Scale(buf[i], AdvanceBy(r, i / 2 + 1).gain))
  }

  /** MAIN: two buffers run in turn are their concatenation run at once. */
  lemma RunConcatenates(r: Ramp, a: seq<int>, b: seq<int>)
    requires |a| % 2 == 0 && |b| % 2 == 0
    ensures RunOn(r, a + b) == RunOn(r, a) + RunOn(AdvanceBy(r, |a| / 2), b)
    ensures AdvanceBy(r, |a + b| / 2) == AdvanceBy(AdvanceBy(r, |a| / 2), |b| / 2)
  {
    hide AdvanceBy, Scale, RunOn;
    AdvanceAdds(r, |a| / 2, |b| / 2);
    var whole, parts := RunOn(r, a + b), RunOn(r, a) + RunOn(AdvanceBy(r, |a| / 2), b);
    forall i | 0 <= i < |a + b|
      ensures whole[i] == parts[i]
    {
      if i < |a| {
        FirstPart(r, a, b, i);
      } else {
        SecondPart(r, a, b, i - |a|);
      }
    }
  }

  lemma FirstPart(r: Ramp, a: seq<int>, b: seq<int>, k: nat)
    requires |a| % 2 == 0 && |b| % 2 == 0 && k < |a|
    ensures RunOn(r, a + b)[k] == RunOn(r, a)[k]
  {
    hide AdvanceBy, Scale;
  }

  lemma SecondPart(r: Ramp, a: seq<int>, b: seq<int>, k: nat)
    requires |a| % 2 == 0 && |b| % 2 == 0 && k < |b|
    ensures RunOn(r, a + b)[|a| + k] == RunOn(AdvanceBy(r, |a| / 2), b)[k]
  {
    hide AdvanceBy, Scale;
    assert (|a| + k) / 2 + 1 == |a| / 2 + (k / 2 + 1);
    AdvanceAdds(r, |a| / 2, k / 2 + 1);
  }

  // ---------- what a buffer sounds like ----------

  /** `y` is `x` at gain `g` / 16384, rounded towards zero. */
  predicate Softened(x: int, g: int, y: int) {
    if x >= 0 then 16384 * y <= x * g < 16384 * (y + 1) else 16384 * (y - 1) < x * g <= 16384 * y
  }

  /** Full gain leaves a sample as it is, no gain silences it. */
  lemma SoftenedEnds(x: int, y: int)
    ensures Softened(x, 16384, y) <==> x == y
    ensures Softened(x, 0, y) <==> y == 0
  {
  }

  lemma ScaleSoftens(x: int, gain: int)
    requires IsS16(x) && InRange(gain)
    ensures Softened(x, gain, Scale(x, gain))
  {
    ScaleShrinks(x, gain);
    hide Scale;
    assert x < 0 ==> -x * gain == -(x * gain);
  }

  /** At any gain, a sample that would not fit 16 bits is cut to the nearest value that does. */
  lemma ScaleSaturates(x: int, gain: nat, y: int)
    requires Softened(x, gain, y)
    ensures Scale(x, gain) == if y > 32767 then 32767 else if y < -32768 then -32768 else y
  {
    if x < 0 {
      assert -x * gain == -(x * gain);
      Bits.ModUnique(-x * gain, -y, -x * gain - -y * 16384, 16384);
    } else {
      Bits.ModUnique(x * gain, y, x * gain - y * 16384, 16384);
    }
  }

  /** The gain of frame `k` of a buffer: so many steps on from `gain`, or the target itself without fading. */
  function FrameGain(fade: bool, gain: int, target: int, step: nat, k: nat): int {
    if fade then Towards(gain, target, (k + 1) * step) else target
  }

  /** Every sample of a stereo buffer is softened by its frame's gain. */
  ghost predicate Faded(r: Ramp, was: seq<int>, out: seq<int>) {
    |was| == |out| && forall i :: 0 <= i < |was| ==> Softened(was[i], FrameGain(r.fade, r.gain, r.target, r.step, i / 2), out[i])
  }

  /** Gains between silence and unity, a step that does not wrap, and 16-bit samples. */
  ghost predicate Normal(gain: int, target: int, step: nat, buf: seq<int>) {
    InRange(gain) && InRange(target) && step <= 16384 && forall i :: 0 <= i < |buf| ==> IsS16(buf[i])
  }

  lemma {:induction false} TargetStays(r: Ramp, k: nat)
    requires !r.fade
    ensures AdvanceBy(r, k + 1) == r.(gain := r.target)
    decreases k
  {
    if k > 0 {
      TargetStays(r, k - 1);
    } else {
      AdvanceNone(r);
      assert AdvanceBy(r, 1) == Advance(AdvanceBy(r, 0));
    }
  }

  lemma GainOfFrame(r: Ramp, k: nat)
    requires InRange(r.gain) && InRange(r.target) && r.step <= 16384
    ensures AdvanceBy(r, k + 1).gain == FrameGain(r.fade, r.gain, r.target, r.step, k)
    ensures InRange(FrameGain(r.fade, r.gain, r.target, r.step, k))
  {
    if r.fade {
      RampIsLinear(r, k + 1);
    } else {
      TargetStays(r, k);
    }
  }

  /** MAIN: a run softens each frame by the gain that many steps on. */
  lemma RunFades(r: Ramp, buf: seq<int>)
    requires |buf| % 2 == 0 && Normal(r.gain, r.target, r.step, buf)
    ensures Faded(r, buf, RunOn(r, buf))
  {
    hide AdvanceBy, Scale, FrameGain, Softened, InRange;
    forall i | 0 <= i < |buf|
      ensures Softened(buf[i], FrameGain(r.fade, r.gain, r.target, r.step, i / 2), RunOn(r, buf)[i])
    {
      GainOfFrame(r, i / 2);
      ScaleSoftens(buf[i], FrameGain(r.fade, r.gain, r.target, r.step, i / 2));
    }
  }

  lemma AdvanceNone(r: Ramp)
    ensures AdvanceBy(r, 0) == r
  {
  }

  /** The two samples of a frame share one gain. */
  lemma PairAt(r: Ramp, buf: seq<int>, i: nat)
    requires |buf| % 2 == 0 && i < |buf| && i % 2 == 0
    ensures var next := Advance(AdvanceBy(r, i / 2));
      && i + 1 < |buf|
      && AdvanceBy(r, (i + 2) / 2) == next
      && RunOn(r, buf)[i] == Scale(buf[i], next.gain)
      && RunOn(r, buf)[i + 1] == Scale(buf[i + 1], next.gain)
  {
    hide Advance, Scale;
    assert i + 1 < |buf| && (i + 2) / 2 == i / 2 + 1 && (i + 1) / 2 == i / 2;
  }

  class Volume {
    var toggle: bool
    var fade: bool
    var gain: int
    const target: int
    const step: nat

    function View(): Ramp
      reads this
    {
      Ramp(fade, gain, target, step)
    }

    constructor (target: int, step: nat)
      ensures View() == Ramp(true, target, target, step) && toggle
    {
      this.toggle, this.fade, this.gain, this.target, this.step := true, true, target, target, step;
    }

    method StepGain()
      modifies this`gain
      ensures View() == Advance(old(View()))
    {
      if fade {
        if gain > target {
          gain := S16(gain - step);
          if gain < target {
            gain := target;
          }
        } else if gain < target {
          gain := S16(gain + step);
          if gain > target {
            gain := target;
          }
        }
      } else {
        gain := target;
      }
    }

    method ScaleSample(buf: array<int>, i: nat)
      requires i < buf.Length
      modifies buf
      ensures buf[..] == old(buf[..])[i := Scale(old(buf[i]), gain)]
    {
      var v := buf[i];
      if v < 0 {
        v := -v;
        v := v * gain / UNITY;
        v := -v;
      } else {
        v := v * gain / UNITY;
      }
      if v < -32768 {
        v := -32768;
      } else if v > 32767 {
        v := 32767;
      }
      buf[i] := v;
    }

    /** One gain step, then the two samples of a frame. */
    method RunFrame(buf: array<int>, i: nat)
      requires i + 1 < buf.Length
      modifies this`gain, buf
      ensures View() == Advance(old(View()))
      ensures buf[..] == old(buf[..])[i := Scale(old(buf[i]), gain)][i + 1 := Scale(old(buf[i + 1]), gain)]
    {
      hide Scale, Advance;
      StepGain();
      ScaleSample(buf, i);
      ScaleSample(buf, i + 1);
    }

    /** The frames of the first `n` samples. */
    method RunFrames(buf: array<int>, n: nat)
      requires n <= buf.Length && n % 2 == 0
      modifies this`gain, buf
      ensures View() == AdvanceBy(old(View()), n / 2)
      ensures buf[..] == RunOn(old(View()), old(buf[..n])) + old(buf[n..])
    {
      hide Scale, Advance, AdvanceBy, RunOn;
      var i := 0;
      ghost var start, was := View(), buf[..];
      ghost var out := RunOn(start, was[..n]);
      AdvanceNone(start);
      while i < n
        invariant 0 <= i <= n && i % 2 == 0 && |was| == buf.Length
        invariant View() == AdvanceBy(start, i / 2)
        invariant forall k :: 0 <= k < i ==> buf[k] == out[k]
        invariant forall k :: i <= k < buf.Length ==> buf[k] == was[k]
      {
        PairAt(start, was[..n], i);
        RunFrame(buf, i);
        i := i + 2;
      }
    }

    /** `audio_digital_vol_run` over `len` bytes of interleaved stereo. */
    method Run(buf: array<int>, len: nat) returns (r: int)
      requires len / 2 <= buf.Length && len / 2 % 2 == 0
      modifies this`gain, buf
      ensures r == if old(toggle) then 0 else -1
      ensures !toggle ==> buf[..] == old(buf[..]) && View() == old(View())
      ensures toggle ==>
        && View() == AdvanceBy(old(View()), len / 4)
        && buf[..] == RunOn(old(View()), old(buf[..len / 2])) + old(buf[len / 2..])
      ensures toggle && Normal(old(gain), target, step, old(buf[..len / 2])) ==>
        Faded(old(View()), old(buf[..len / 2]), buf[..len / 2])
    {
      if !toggle {
        return -1;
      }
      if Normal(gain, target, step, buf[..len / 2]) {
        RunFades(View(), buf[..len / 2]);
      }
      hide *;
      RunFrames(buf, len / 2);
      assert len / 2 / 2 == len / 4;
      r := 0;
    }
  }
}
