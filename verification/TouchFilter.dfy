/** The touch-key baseline filter, in the source's 16-bit arithmetic. */
module TouchFilter {
  import opened CInt

  const FALL_LIMIT := -80     // FLT1CFG1
  const RISE_LIMIT := 1280    // FLT1CFG2

  /** Thresholds of the board: press, release, and the one below which a held key drags the baseline. */
  datatype Config = Config(press: int, release0: int, release1: int)

  datatype Chan = Chan(cnt: nat, release: int, released: bool, initCnt: nat)

  function Baseline(c: Chan): int {
    c.release / 128
  }

  /** While the channel settles, both filters follow the sample. */
  function Settle(c: Chan, res: nat): Chan {
    if c.initCnt > 0 then c.(initCnt := c.initCnt - 1, cnt := res, release := res * 128) else c
  }

  /** Mean of two successive filter values, as 16-bit arithmetic computes it. */
  function Smoothed(c: Chan, res: nat): nat {
    U16(c.cnt + res) / 2
  }

  function Difference(c: Chan, res: nat): int {
    S16(Smoothed(c, res) - U16(Baseline(c)))
  }

  /** How far the scaled baseline moves. */
  function Drift(cfg: Config, released: bool, diff: int): int {
    if released then
      if diff >= 0 then (if diff < RISE_LIMIT / 8 then S16(diff * 8) else RISE_LIMIT)
      else if diff >= FALL_LIMIT then diff
      else diff / 8
    else if diff <= cfg.release1 then diff / 8
    else 0
  }

  function Pressed(cfg: Config, released: bool, diff: int): bool {
    if diff <= cfg.press then false else if diff >= cfg.release0 then true else released
  }

  function Update(cfg: Config, c0: Chan, res: nat): Chan {
    var c := Settle(c0, res);
    var diff := Difference(c, res);
    c.(cnt := res,
       release := c.release + Drift(cfg, c.released, diff),
       released := Pressed(cfg, c.released, diff))
  }

  /** Both filters lie within a range of samples. */
  ghost predicate Within(c: Chan, lo: nat, hi: nat) {
    lo <= c.cnt <= hi && lo <= Baseline(c) <= hi
  }

  predicate Between(x: int, a: int, b: int) {
    (a <= x <= b) || (b <= x <= a)
  }

  /** Within a range below 32768 nothing wraps. */
  lemma NoWrap(c: Chan, res: nat, lo: nat, hi: nat)
    requires Within(c, lo, hi) && lo <= res <= hi <= 0x7fff
    ensures lo <= Smoothed(c, res) <= hi
    ensures Difference(c, res) == Smoothed(c, res) - Baseline(c)
  {
    assert U16(c.cnt + res) == c.cnt + res;
    assert U16(Baseline(c)) == Baseline(c);
  }

  /** MAIN: an update puts the baseline between its old value and the smoothed sample, in either key state. */
  lemma NoOvershoot(cfg: Config, c: Chan, res: nat, lo: nat, hi: nat)
    requires Within(Settle(c, res), lo, hi) && lo <= res <= hi <= 0x7fff
    ensures var s := Settle(c, res);
      && lo <= Smoothed(s, res) <= hi
      && Difference(s, res) == Smoothed(s, res) - Baseline(s)
      && Between(Baseline(Update(cfg, c, res)), Baseline(s), Smoothed(s, res))
  {
    hide Drift, Settle, U16, S16;
    var s := Settle(c, res);
    NoWrap(s, res, lo, hi);
    hide Smoothed, Difference;
    var d := Difference(s, res);
    DriftBounded(cfg, s.released, d);
    MovedBaseline(s.release, Drift(cfg, s.released, d), d);
  }

  lemma MovedBaseline(release: int, drift: int, diff: int)
    requires if diff >= 0 then 0 <= drift <= 8 * diff else diff <= drift <= 0
    ensures Between((release + drift) / 128, release / 128, release / 128 + diff)
  {
    var b, f := release / 128, release % 128;
    assert release == 128 * b + f;
  }

  /** The drift is at most 8 times a rise, and never larger than 128 times the difference. */
  lemma DriftBounded(cfg: Config, released: bool, diff: int)
    requires -0x8000 <= diff < 0x8000
    ensures diff >= 0 ==> 0 <= Drift(cfg, released, diff) <= 8 * diff
    ensures diff < 0 ==> diff <= Drift(cfg, released, diff) <= 0
  {
  }

  /** The filters while nothing wraps: the mean of two values, rounded down. */
  lemma SmoothedIsMean(c: Chan, res: nat)
    requires c.cnt + res < 0x1_0000
    ensures 2 * Smoothed(c, res) <= c.cnt + res < 2 * Smoothed(c, res) + 2
  {
  }

  /**
   MAIN: what an update adds to the scaled baseline. Released, it rises by eight times the difference but at most
   by 1280, falls by a difference down to -80 and by an eighth of a larger one; held, it moves by an eighth of a
   difference up to the board's threshold and stays otherwise. Eighths are rounded down.
   */
  lemma UpdateMoves(cfg: Config, c: Chan, res: nat)
    requires -0x1000 <= Difference(Settle(c, res), res) < 0x1000
    ensures var s := Settle(c, res);
      var d, moved := Difference(s, res), Update(cfg, c, res).release - s.release;
      && Update(cfg, c, res).cnt == res
      && if s.released && d >= 0 then moved == Min(8 * d, 1280)
         else if s.released && d >= -80 then moved == d
         else if s.released || d <= cfg.release1 then 8 * moved <= d < 8 * moved + 8
         else moved == 0
  {
    hide Settle, Difference;
  }

  lemma UpdateWithin(cfg: Config, c: Chan, res: nat, lo: nat, hi: nat)
    requires (c.initCnt > 0 || Within(c, lo, hi)) && lo <= res <= hi <= 0x7fff
    ensures Within(Update(cfg, c, res), lo, hi)
  {
    assert Within(Settle(c, res), lo, hi);
    NoOvershoot(cfg, c, res, lo, hi);
  }

  function Updates(cfg: Config, c: Chan, samples: seq<nat>): Chan {
    if samples == [] then c else Update(cfg, Updates(cfg, c, samples[..|samples| - 1]), samples[|samples| - 1])
  }

  /** MAIN: over any run of samples within a range the baseline stays within it. */
  lemma {:induction false} RunWithin(cfg: Config, c: Chan, samples: seq<nat>, lo: nat, hi: nat)
    requires c.initCnt > 0 || Within(c, lo, hi)
    requires hi <= 0x7fff && forall i :: 0 <= i < |samples| ==> lo <= samples[i] <= hi
    ensures samples != [] || c.initCnt == 0 ==> Within(Updates(cfg, c, samples), lo, hi)
    decreases |samples|
  {
    if samples != [] {
      RunWithin(cfg, c, samples[..|samples| - 1], lo, hi);
      UpdateWithin(cfg, Updates(cfg, c, samples[..|samples| - 1]), samples[|samples| - 1], lo, hi);
    }
  }

  ghost predicate KeepsRange(cfg: Config, hi: nat) {
    forall lo: nat, c: Chan, res: nat :: Within(c, lo, hi) && c.initCnt == 0 && lo <= res <= hi ==> Within(Update(cfg, c, res), lo, hi)
  }

  /** Ranges are kept exactly when they end by 32767: above, the sum of two samples wraps. */
  lemma KeepsRangeIff(cfg: Config, hi: nat)
    requires hi < TWO16
    ensures KeepsRange(cfg, hi) <==> hi <= 0x7fff
  {
    if hi <= 0x7fff {
      forall lo: nat, c: Chan, res: nat | Within(c, lo, hi) && c.initCnt == 0 && lo <= res <= hi
        ensures Within(Update(cfg, c, res), lo, hi)
      {
        UpdateWithin(cfg, c, res, lo, hi);
      }
    } else {
      var c := Chan(hi, 128 * hi, true, 0);
      assert Within(c, hi, hi);
      assert U16(hi + hi) == 2 * hi - TWO16;
      assert Smoothed(c, hi) == hi - 0x8000;
      assert Baseline(c) == hi && U16(hi) == hi;
      assert Difference(c, hi) == -0x8000;
      assert Update(cfg, c, hi).release == 128 * hi - 4096;
      assert !Within(Update(cfg, c, hi), hi, hi);
    }
  }

  /** The key changes state only at the thresholds. */
  lemma KeyChangesAtThresholds(cfg: Config, c: Chan, res: nat)
    ensures var s := Settle(c, res);
      var d := Difference(s, res);
      && (c.released && !Update(cfg, c, res).released <==> c.released && d <= cfg.press)
      && (!c.released && Update(cfg, c, res).released <==> !c.released && d > cfg.press && d >= cfg.release0)
  {
  }

  /** MAIN: the first `initCnt` samples are taken over as they are; with a threshold below 0 they press no key. */
  lemma {:induction false} Settling(cfg: Config, c: Chan, samples: seq<nat>)
    requires cfg.press < 0 && samples != [] && |samples| <= c.initCnt
    requires forall i :: 0 <= i < |samples| ==> samples[i] <= 0x7fff
    ensures var u := Updates(cfg, c, samples);
      && u.cnt == samples[|samples| - 1] && u.release == 128 * samples[|samples| - 1]
      && u.initCnt == c.initCnt - |samples| && (c.released ==> u.released)
    decreases |samples|
  {
    var init, last := samples[..|samples| - 1], samples[|samples| - 1];
    if init == [] {
      assert Updates(cfg, c, init) == c;
    } else {
      Settling(cfg, c, init);
    }
    hide Updates;
    SettleOnce(cfg, if init == [] then c else Updates(cfg, c, init), last);
    LastUpdate(cfg, c, samples);
  }

  lemma LastUpdate(cfg: Config, c: Chan, samples: seq<nat>)
    requires samples != []
    ensures Updates(cfg, c, samples) == Update(cfg, Updates(cfg, c, samples[..|samples| - 1]), samples[|samples| - 1])
    ensures Updates(cfg, c, []) == c
  {
  }

  lemma SettleOnce(cfg: Config, c: Chan, res: nat)
    requires c.initCnt > 0 && cfg.press < 0 && res <= 0x7fff
    ensures var u := Update(cfg, c, res);
      u.cnt == res && u.release == 128 * res && u.initCnt == c.initCnt - 1 && (c.released ==> u.released)
  {
    NoWrap(Settle(c, res), res, res, res);
  }

  // ---------- convergence ----------

  /** Distance of the scaled baseline from the band that reads as `x`. */
  function Gap(c: Chan, x: nat): nat {
    if c.release < 128 * x then 128 * x - c.release
    else if c.release > 128 * x + 127 then c.release - (128 * x + 127)
    else 0
  }

  function Hold(cfg: Config, c: Chan, x: nat, n: nat): Chan {
    if n == 0 then c else Update(cfg, Hold(cfg, c, x, n - 1), x)
  }

  /** Released, settled on `x`, and not far enough above it to read as pressed. */
  ghost predicate Resting(cfg: Config, c: Chan, x: nat) {
    && c.released && c.initCnt == 0 && c.cnt == x <= 0x7fff && 0 <= Baseline(c) <= 0x7fff
    && cfg.press < 0 && x - Baseline(c) > cfg.press
  }

  lemma HoldStep(cfg: Config, c: Chan, x: nat)
    requires Resting(cfg, c, x)
    ensures var d := Update(cfg, c, x);
      Resting(cfg, d, x) && (Gap(c, x) > 0 ==> Gap(d, x) < Gap(c, x)) && (Gap(c, x) == 0 ==> d == c)
  {
    var b := Baseline(c);
    NoOvershoot(cfg, c, x, if b < x then b else x, if b < x then x else b);
    assert Smoothed(c, x) == x;
  }

  /** MAIN: under a constant input a released key's baseline reaches it within `Gap` updates and stays. */
  lemma {:induction false} Converges(cfg: Config, c: Chan, x: nat, n: nat)
    requires Resting(cfg, c, x)
    ensures Resting(cfg, Hold(cfg, c, x, n), x)
    ensures Gap(Hold(cfg, c, x, n), x) <= Max(0, Gap(c, x) - n)
    ensures n >= Gap(c, x) ==> Baseline(Hold(cfg, c, x, n)) == x
  {
    if n > 0 {
      Converges(cfg, c, x, n - 1);
      HoldStep(cfg, Hold(cfg, c, x, n - 1), x);
    }
  }

  /** Distance of the scaled baseline below the value `x`. */
  function Below(c: Chan, x: nat): int {
    128 * x - c.release
  }

  /** MAIN: towards a constant input less than 160 above it a released key's baseline closes a sixteenth of the distance with every update. */
  lemma RiseRate(cfg: Config, c: Chan, x: nat)
    requires Resting(cfg, c, x) && 0 <= x - Baseline(c) < 160
    ensures 15 * Below(c, x) - 128 < 16 * Below(Update(cfg, c, x), x) <= 15 * Below(c, x)
  {
    var b := Baseline(c);
    NoWrap(c, x, b, x);
    assert Smoothed(c, x) == x;
    UpdateMoves(cfg, c, x);
  }
}
