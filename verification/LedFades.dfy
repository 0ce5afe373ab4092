/** What a LED of the charging case shows over its control steps: ramps, breaths and flashes. */
module LedFades {
  import opened CInt
  import opened Bits
  import opened SoftLed

  /** The duty that stands for `n` of `d` steps to the full 51, rounded down. */
  predicate Stands(duty: nat, n: int, d: nat) {
    d * duty <= n * 51 < d * (duty + 1)
  }

  lemma FractionStands(n: nat, d: nat)
    requires 0 < n < d
    ensures Stands(Fraction(n, 51, d), n, d)
  {
    Proportion(n, 51, d);
    Share(51, n, d);
    var x := n * 51;
    assert 51 * n == x;
    assert x == x / d * d + x % d;
    assert U8(x / d) == x / d;
    assert (x / d + 1) * d == x / d * d + d;
  }

  // ---------- ramps ----------

  /** One step of a ramp up: the next share of the steps, or full at its end. */
  lemma UpStep(l: Led)
    requires Inv(l)
    ensures var m := RampUp(l);
      && m == l.(stepCnt := m.stepCnt, curDuty := m.curDuty)
      && if l.stepCnt + 1 < l.upTimes then m.stepCnt == l.stepCnt + 1 && Stands(m.curDuty, l.stepCnt + 1, l.upTimes) && m.curDuty < 51
         else m.stepCnt == 0 && m.curDuty == 51
  {
    SmallU16(l.stepCnt + 1);
    RampUpKeeps(l);
    if l.stepCnt + 1 < l.upTimes {
      FractionStands(l.stepCnt + 1, l.upTimes);
    }
    hide Fraction, U16, Stands;
  }

  lemma DownStep(l: Led)
    requires Inv(l)
    ensures var m := RampDown(l);
      && m == l.(stepCnt := m.stepCnt, curDuty := m.curDuty)
      && if l.stepCnt + 1 < l.downTimes then
           m.stepCnt == l.stepCnt + 1 && Stands(m.curDuty, l.downTimes - (l.stepCnt + 1), l.downTimes)
         else m.stepCnt == 0 && m.curDuty == 0
  {
    SmallU16(l.stepCnt + 1);
    if l.stepCnt + 1 < l.downTimes {
      FractionStands(l.downTimes - (l.stepCnt + 1), l.downTimes);
    }
    hide Fraction, U16, Stands;
  }

  /** MAIN: a LED that is switched on shows, n steps later, the share of the ramp it has gone; at its end it is full and stays so. */
  lemma {:induction false} FadesIn(l: Led, n: nat)
    requires Inv(l) && l.mode == On && !l.flicker && l.curDuty < 51 && 0 < n
    ensures var m := Controls(l, n);
      && Inv(m) && m.mode == On && !m.flicker && m.upTimes == l.upTimes
      && (l.stepCnt + n < l.upTimes ==> m.stepCnt == l.stepCnt + n && m.curDuty < 51 && Stands(m.curDuty, l.stepCnt + n, l.upTimes))
      && (l.stepCnt + n >= l.upTimes ==> m.curDuty == 51)
  {
    if n == 1 {
      ControlsFirst(l, 1);
      UpStep(l);
      assert Controls(l, 1) == RampUp(l);
    } else {
      FadesIn(l, n - 1);
      ControlsLast(l, n - 1);
      var k := Controls(l, n - 1);
      UpStep(k);
      assert Controls(l, n) == Control(k).0;
      ControlKeepsInv(k);
      hide Controls, Stands, RampUp;
    }
  }

  /** MAIN: one that is switched off shows the share that is left, until that is less than one tick of light. */
  lemma {:induction false} FadesOut(l: Led, n: nat)
    requires Inv(l) && l.mode == Off && !l.flicker && l.curDuty > 0 && 0 < n
    requires n == 1 || (l.downTimes - (l.stepCnt + n - 1)) * 51 >= l.downTimes
    ensures var m := Controls(l, n);
      && Inv(m) && m.mode == Off && !m.flicker && m.downTimes == l.downTimes
      && (l.stepCnt + n < l.downTimes ==> m.stepCnt == l.stepCnt + n && Stands(m.curDuty, l.downTimes - (l.stepCnt + n), l.downTimes))
      && (l.stepCnt + n >= l.downTimes ==> m.curDuty == 0)
  {
    if n == 1 {
      ControlsFirst(l, 1);
      DownStep(l);
      assert Controls(l, 1) == RampDown(l);
    } else {
      FadesOut(l, n - 1);
      ControlsLast(l, n - 1);
      var k := Controls(l, n - 1);
      assert l.stepCnt + (n - 1) < l.downTimes;
      StillLit(k.curDuty, l.downTimes - (l.stepCnt + n - 1), l.downTimes);
      DownStep(k);
      ControlKeepsInv(k);
      hide Controls, Stands, RampDown;
    }
  }

  lemma StillLit(duty: nat, n: int, d: nat)
    requires Stands(duty, n, d) && n * 51 >= d
    ensures duty > 0
  {
  }

  // ---------- breaths and flashes ----------

  /** How many breaths are left after this one. */
  function OneLess(times: nat): int {
    if times == 0xffff then times else times - 1
  }

  /** A breath of `l`, `k` control steps from its start: brighter, full, darker, dark, and over. */
  ghost predicate Breathes(l: Led, m: Led, k: nat) {
    var a, b, c := l.upTimes, l.upTimes + l.lightTimes, l.upTimes + l.lightTimes + l.downTimes;
    && m.mode == Breathe
    && m.upTimes == l.upTimes && m.lightTimes == l.lightTimes && m.downTimes == l.downTimes && m.darkTimes == l.darkTimes
    && if k < a then m.breTimes == l.breTimes && m.phase == Up && m.stepCnt == k && (k > 0 ==> Stands(m.curDuty, k, a))
       else if k < b then m.breTimes == l.breTimes && m.phase == Light && m.stepCnt == k - a && (k > a ==> m.curDuty == 51)
       else if k < c then m.breTimes == l.breTimes && m.phase == Down && m.stepCnt == k - b && Stands(m.curDuty, c - k, l.downTimes)
       else if k < c + l.darkTimes then
         && m.breTimes == l.breTimes && m.phase == Dark && m.stepCnt == k - c
         && if k == c then Stands(m.curDuty, 1, l.downTimes) else m.curDuty == 0
       else m.breTimes == OneLess(l.breTimes) && m.phase == Up && m.stepCnt == 0 && m.curDuty == 0
  }

  lemma BreathStep(l: Led, m: Led, k: nat)
    requires Inv(l) && Inv(m) && l.breTimes > 0 && Breathes(l, m, k) && k < Breath(l)
    ensures Breathes(l, BreatheStep(m), k + 1)
  {
    SmallU16(m.stepCnt + 1);
    if m.stepCnt + 1 < m.upTimes {
      FractionStands(m.stepCnt + 1, m.upTimes);
    }
    if m.stepCnt + 1 < m.downTimes {
      FractionStands(m.downTimes - (m.stepCnt + 1), m.downTimes);
    }
    FullStands(l.downTimes);
    hide Fraction, U16, Stands;
  }

  lemma FullStands(d: nat)
    requires d > 0
    ensures Stands(51, d, d)
  {
  }

  /** MAIN: a breathing LED goes through exactly that, step by step. */
  lemma {:induction false} BreathShape(l: Led, k: nat)
    requires Inv(l) && l.mode == Breathe && l.breTimes > 0 && l.phase == Up && l.stepCnt == 0 && k <= Breath(l)
    ensures Inv(Controls(l, k)) && Breathes(l, Controls(l, k), k)
  {
    if k == 0 {
      assert Controls(l, 0) == l;
    } else {
      BreathShape(l, k - 1);
      var m := Controls(l, k - 1);
      ControlsLast(l, k - 1);
      ControlKeepsInv(m);
      BreathStep(l, m, k - 1);
      assert m.mode == Breathe && m.breTimes > 0;
      assert Control(m).0 == BreatheStep(m);
      hide Breathes, Controls, Control, BreatheStep, Breath;
    }
  }

  /** A flash of `l`: full for the up and light steps, dark for the down and dark steps, and over. */
  ghost predicate Flashes(l: Led, m: Led, k: nat) {
    var lit := l.upTimes + l.lightTimes;
    && m.mode == Flash
    && m.upTimes == l.upTimes && m.lightTimes == l.lightTimes && m.downTimes == l.downTimes && m.darkTimes == l.darkTimes
    && (0 < k <= lit ==> m.curDuty == 51) && (lit < k ==> m.curDuty == 0)
    && if k < lit then m.breTimes == l.breTimes && m.phase == Up && m.stepCnt == k
       else if k < Breath(l) then m.breTimes == l.breTimes && m.phase == Down && m.stepCnt == k - lit
       else m.breTimes == OneLess(l.breTimes) && m.phase == Up && m.stepCnt == 0
  }

  lemma FlashOnce(l: Led, m: Led, k: nat)
    requires Inv(l) && Inv(m) && l.breTimes > 0 && Flashes(l, m, k) && k < Breath(l)
    ensures Flashes(l, FlashStep(m), k + 1)
  {
    SmallU16(m.stepCnt + 1);
    hide U16;
  }

  /** MAIN: a flashing LED goes through exactly that. */
  lemma {:induction false} FlashShape(l: Led, k: nat)
    requires Inv(l) && l.mode == Flash && l.breTimes > 0 && l.phase == Up && l.stepCnt == 0 && k <= Breath(l)
    ensures Inv(Controls(l, k)) && Flashes(l, Controls(l, k), k)
  {
    if k == 0 {
      assert Controls(l, 0) == l;
    } else {
      FlashShape(l, k - 1);
      var m := Controls(l, k - 1);
      ControlsLast(l, k - 1);
      ControlKeepsInv(m);
      FlashOnce(l, m, k - 1);
      assert m.mode == Flash && m.breTimes > 0;
      assert Control(m).0 == FlashStep(m);
      hide Flashes, Controls, Control, FlashStep, Breath;
    }
  }

  // ---------- flicker ----------

  /** The wink's turning point: dark under a LED that is on, full under one that is off. */
  ghost predicate Winking(l: Led) {
    l.flicker && ((l.mode == On && l.curDuty == 0) || (l.mode == Off && l.curDuty == 51))
  }

  /** MAIN: a wink holds its turning point for the control steps it was given, and is over with the last. */
  lemma {:induction false} WinkHolds(l: Led, n: nat)
    requires Inv(l) && Winking(l) && n <= l.flickerCnt
    ensures Controls(l, n) == l.(flickerCnt := l.flickerCnt - n, flicker := n < l.flickerCnt)
    decreases n
  {
    if n == 0 {
      assert Controls(l, 0) == l;
    } else {
      ControlKeepsInv(l);
      ControlsFirst(l, n);
      var m := Control(l).0;
      assert m == l.(flickerCnt := l.flickerCnt - 1, flicker := 1 < l.flickerCnt);
      hide Controls, Control;
      if n == 1 {
        assert Controls(m, 0) == m by {
          NoControls(m);
        }
      } else {
        WinkHolds(m, n - 1);
      }
    }
  }

  lemma NoControls(l: Led)
    requires Inv(l)
    ensures Controls(l, 0) == l
  {
  }

  /** Before it, a LED that is on dims like one that is switched off, and one that is off brightens like one switched on. */
  lemma WinkRamps(l: Led)
    requires Inv(l) && l.flicker && !Winking(l) && (l.mode == On || l.mode == Off)
    ensures var m := Control(l).0;
      && m == l.(stepCnt := m.stepCnt, curDuty := m.curDuty)
      && if l.mode == On then
           if l.stepCnt + 1 < l.downTimes then
             m.stepCnt == l.stepCnt + 1 && Stands(m.curDuty, l.downTimes - (l.stepCnt + 1), l.downTimes)
           else m.stepCnt == 0 && m.curDuty == 0
         else if l.stepCnt + 1 < l.upTimes then m.stepCnt == l.stepCnt + 1 && Stands(m.curDuty, l.stepCnt + 1, l.upTimes)
         else m.stepCnt == 0 && m.curDuty == 51
  {
    UpStep(l);
    DownStep(l);
    hide RampUp, RampDown, Stands;
  }

  /** MAIN: a LED may sleep exactly when it is off and dark with no wink to come, or has no breath or flash left; it then stays as it is. */
  lemma SleepsIff(l: Led)
    requires Inv(l)
    ensures Control(l).1 <==>
      (l.mode == Off && !l.flicker && l.curDuty == 0) || ((l.mode == Breathe || l.mode == Flash) && l.breTimes == 0)
    ensures Control(l).1 || (l.mode == On && !l.flicker && l.curDuty == 51) ==> Control(l).0 == l
  {
    hide RampUp, RampDown, BreatheStep, FlashStep;
  }

  /**
   MAIN: a flash is lit in phase UP and dark otherwise.  It is dropped on the spot exactly when it is asked for
   while the LED is in the light or the dark phase of a breath.
   */
  lemma FlashDroppedIff(l: Led)
    requires Inv(l) && l.mode == Flash && l.breTimes > 1
    ensures var m := Control(l).0;
      && m.curDuty == (if l.phase == Up then 51 else 0)
      && (m.breTimes == 0 <==> l.phase == Light || l.phase == Dark)
  {
    SmallU16(l.stepCnt + 1);
    hide U16;
  }

  // ---------- setters ----------

  /** What a setter asks of a LED: its mode, how often, and how many steps its ramps take. */
  lemma SettersAsk(l: Led, s: LedStep)
    requires Inv(l) && s != Interrupt
    ensures var m := LedNext(l, s);
      && m.pCnt == l.pCnt && m.phase == l.phase && !m.idle
      && m.mode == (match s
           case State(self, on, _, _) => if self && on then On else Off
           case Breathing(self, _, breathe, _) => if !self then Off else if breathe then Breathe else Flash
           case AllOn(_) => On
           case _ => Off)
      && m.breTimes == (if s.Breathing? && s.self then s.times else 0)
      && (m.mode == On ==> m.upTimes == 50)
      && (m.mode == Off ==> m.downTimes == if (s.State? || s.Breathing?) && !s.self then 20 else 50)
      && ((m.mode == Breathe || m.mode == Flash) && s.speed != Same ==>
           m.upTimes == m.downTimes == (if s.speed == Fast then 50 else 200)
           && m.lightTimes == m.darkTimes == (if s.speed == Fast then 10 else 40))
      && (s.State? ==> m.flicker == (s.self && s.flicker && s.fade) && (s.self ==> m.flickerCnt == 30))
      && ((s.AllOff? || s.AllOn?) ==> m.flicker == (l.flicker && s.fade))
  {
    MatchedSteps(l);
    hide UpFrom, DownFrom;
  }

  predicate Fades(s: LedStep) {
    match s
    case Interrupt => false
    case State(_, _, _, fade) => fade
    case Breathing(_, _, _, _) => true
    case AllOff(fade) => fade
    case AllOn(fade) => fade
  }

  lemma MatchedStands(n: nat, duty: nat)
    ensures 51 * Matched(n, duty, 51) <= n * duty < 51 * (Matched(n, duty, 51) + 1)
  {
    var x := n * duty;
    assert x == x / 51 * 51 + x % 51;
  }

  /**
   MAIN: with a fade the brightness stays and the step count starts at its share of the ramp - of the ramp as it
   was before the call, except for other LEDs told to breathe; without one the LED is at once full or dark.
   */
  lemma SettersStart(l: Led, s: LedStep)
    requires Inv(l) && s != Interrupt
    ensures var m := LedNext(l, s);
      var down := if s.Breathing? then m.downTimes else l.downTimes;
      var up := if s.Breathing? then m.upTimes else l.upTimes;
      if !Fades(s) then m.stepCnt == 0 && m.curDuty == (if m.mode == On then 51 else 0)
      else if m.mode == Off then
        m.curDuty == l.curDuty && 51 * (down - m.stepCnt) <= down * l.curDuty < 51 * (down - m.stepCnt + 1)
      else m.curDuty == l.curDuty && 51 * m.stepCnt <= up * l.curDuty < 51 * (m.stepCnt + 1)
  {
    MatchedSteps(l);
    MatchedStands(l.upTimes, l.curDuty);
    MatchedStands(l.downTimes, l.curDuty);
    MatchedStands(20, l.curDuty);
    MatchedStands(50, l.curDuty);
    MatchedStands(200, l.curDuty);
    hide Matched;
  }

  /** Ramp lengths that occur: 50 or 200 steps up, 20, 50 or 200 down. */
  predicate Usual(l: Led) {
    (l.upTimes == 50 || l.upTimes == 200) && (l.downTimes == 20 || l.downTimes == 50 || l.downTimes == 200)
  }

  lemma RampsUsual(l: Led)
    requires Inv(l)
    ensures Usual(RampUp(l)) == Usual(RampDown(l)) == Usual(l)
  {
    hide U16, Fraction;
  }

  lemma FlashUsual(l: Led)
    requires Inv(l) && l.breTimes > 0
    ensures Usual(FlashStep(l)) == Usual(l)
  {
    hide U16, Fraction;
  }

  lemma BreathUsual(l: Led)
    requires Inv(l) && l.breTimes > 0
    ensures Usual(BreatheStep(l)) == Usual(l)
  {
    SettingsStay(l);
    hide BreatheStep;
  }

  lemma ControlUsual(l: Led)
    requires Inv(l) && Usual(l)
    ensures Usual(Control(l).0)
  {
    RampsUsual(l);
    if l.breTimes > 0 {
      FlashUsual(l);
      BreathUsual(l);
    }
    hide RampUp, RampDown, BreatheStep, FlashStep, Inv;
  }

  lemma TickUsual(l: Led)
    requires Inv(l) && Usual(l)
    ensures Usual(Tick(l).0)
  {
    ControlUsual(l.(pCnt := 0));
    hide Control, Inv;
  }

  lemma SetterUsual(l: Led, s: LedStep)
    requires Inv(l) && Usual(l) && s != Interrupt
    ensures Usual(LedNext(l, s))
  {
    hide UpFrom, DownFrom;
  }

  lemma {:induction false} RunUsual(l: Led, run: seq<LedStep>)
    requires Inv(l) && Usual(l) && forall s :: s in run && s.Breathing? ==> s.times <= FOREVER
    ensures Usual(AfterRun(l, run))
    decreases |run|
  {
    if run != [] {
      assert run[0] in run;
      LedStepKeepsInv(l, run[0]);
      if run[0] == Interrupt {
        TickUsual(l);
      } else {
        SetterUsual(l, run[0]);
      }
      hide Inv, Usual, Tick, SetState, SetBreathe, SetAllOff, SetAllOn;
      RunUsual(LedNext(l, run[0]), run[1..]);
    }
  }

  /** MAIN: no other lengths occur in states reached from power-on. */
  lemma ReachableUsual(run: seq<LedStep>)
    requires forall s :: s in run && s.Breathing? ==> s.times <= FOREVER
    ensures Inv(Init()) && Usual(AfterRun(Init(), run))
  {
    InitInv();
    RunUsual(Init(), run);
  }

  /** The brightness one control step later. */
  function NextDuty(l: Led): nat
    requires Inv(l)
  {
    Control(l).0.curDuty
  }

  predicate Near(a: nat, b: nat, reach: nat) {
    a <= b + reach && b <= a + reach
  }

  /**
   MAIN: the steps are matched so that fading starts without a jump, but by the ramp that is about to be replaced:
   switching on starts within one tick of the present light exactly after a fast ramp or from dark or nearly full.
   */
  lemma SwitchOnSmoothIff(l: Led)
    requires Inv(l) && Usual(l) && l.curDuty < 51
    ensures var m := SetState(l, true, true, false, true);
      Inv(m) && (Near(NextDuty(m), l.curDuty, 1) <==> l.upTimes == 50 || l.curDuty == 0 || l.curDuty == 50)
  {
    SettersKeepInv(l, true, true, false, true, Same, false, 0);
    var m := SetState(l, true, true, false, true);
    SettersAsk(l, State(true, true, false, true));
    SettersStart(l, State(true, true, false, true));
    UpStep(m);
    assert m.curDuty == l.curDuty && !m.flicker;
    assert NextDuty(m) == RampUp(m).curDuty;
    var next := NextDuty(m);
    hide SetState, RampUp, UpFrom, DownFrom, NextDuty, Inv, LedNext;
    OnNear(l.upTimes, l.curDuty, m.stepCnt, next);
  }

  lemma OnNear(up: nat, duty: nat, s: nat, next: nat)
    requires (up == 50 || up == 200) && duty < 51
    requires 51 * s <= up * duty < 51 * (s + 1)
    requires if s + 1 < 50 then Stands(next, s + 1, 50) else next == 51
    ensures Near(next, duty, 1) <==> up == 50 || duty == 0 || duty == 50
  {
  }

  /** MAIN: and switching off within two ticks exactly after a ramp of 50 steps, or near the ends; after a shorter one the light rises first. */
  lemma SwitchOffSmoothIff(l: Led)
    requires Inv(l) && Usual(l) && l.curDuty > 0
    ensures var m := SetState(l, true, false, false, true);
      Inv(m) && (Near(NextDuty(m), l.curDuty, 2) <==>
        l.downTimes == 50 || (l.downTimes == 20 && l.curDuty >= 43) || (l.downTimes == 200 && (l.curDuty <= 2 || l.curDuty == 51)))
    ensures var m := SetState(l, true, false, false, true);
      l.downTimes == 20 && l.curDuty < 43 ==> NextDuty(m) > l.curDuty + 2
  {
    SettersKeepInv(l, true, false, false, true, Same, false, 0);
    var m := SetState(l, true, false, false, true);
    SettersAsk(l, State(true, false, false, true));
    SettersStart(l, State(true, false, false, true));
    DownStep(m);
    assert m.curDuty == l.curDuty && !m.flicker;
    assert NextDuty(m) == RampDown(m).curDuty;
    var next := NextDuty(m);
    hide SetState, RampDown, UpFrom, DownFrom, NextDuty, Inv, LedNext;
    OffNear(l.downTimes, l.curDuty, m.stepCnt, next);
  }

  lemma OffNear(down: nat, duty: nat, s: nat, next: nat)
    requires (down == 20 || down == 50 || down == 200) && 0 < duty <= 51
    requires 51 * (down - s) <= down * duty < 51 * (down - s + 1)
    requires if s + 1 < 50 then Stands(next, 50 - (s + 1), 50) else next == 0
    ensures Near(next, duty, 2) <==>
      down == 50 || (down == 20 && duty >= 43) || (down == 200 && (duty <= 2 || duty == 51))
    ensures down == 20 && duty < 43 ==> next > duty + 2
  {
  }
}
