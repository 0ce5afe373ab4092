/** One soft-PWM LED of the charging case: its control state machine and its PWM period. */
module SoftLed {
  import opened CInt
  import opened Bits

  const PWM_MAX := 128
  const MAX_DUTY := PWM_MAX * 40 / 100
  const UP_DEFAULT := 50
  const DOWN_DEFAULT := 50
  const FLICKER_DEFAULT := 30
  const FOREVER := 0xffff
  const LONGEST := 1000

  datatype Mode = On | Off | Breathe | Flash
  datatype Phase = Up | Light | Down | Dark

  datatype Led = Led(
    mode: Mode, phase: Phase, breTimes: nat,
    upTimes: nat, lightTimes: nat, downTimes: nat, darkTimes: nat,
    stepCnt: nat, pCnt: nat, curDuty: nat, maxDuty: nat,
    flicker: bool, flickerCnt: nat, idle: bool)

  ghost predicate Inv(l: Led) {
    && l.maxDuty == MAX_DUTY && l.curDuty <= l.maxDuty && l.pCnt < PWM_MAX
    && 0 < l.upTimes <= 200 && 0 < l.downTimes <= 200 && 0 < l.lightTimes <= 100 && 0 < l.darkTimes <= 100
    && l.stepCnt <= 300 && l.breTimes <= FOREVER
    && (l.flicker ==> 0 < l.flickerCnt <= FLICKER_DEFAULT)
  }

  function Init(): Led {
    Led(Off, Up, 0, UP_DEFAULT, 100, DOWN_DEFAULT, 10, 0, 0, 0, MAX_DUTY, false, 0, false)
  }

  // ---------- setters ----------

  /** The share of `n` steps that a duty stands for. */
  function Matched(n: nat, duty: nat, maxDuty: nat): nat
    requires maxDuty > 0
  {
    n * duty / maxDuty
  }

  /** Step count that matches the present brightness on the way up. */
  function UpFrom(l: Led): nat
    requires l.maxDuty > 0
  {
    Matched(l.upTimes, l.curDuty, l.maxDuty)
  }

  /** Step count that matches the present brightness on the way down. */
  function DownFrom(l: Led): int
    requires l.maxDuty > 0
  {
    l.downTimes - Matched(l.downTimes, l.curDuty, l.maxDuty)
  }

  lemma MatchedSteps(l: Led)
    requires l.maxDuty > 0 && l.curDuty <= l.maxDuty
    ensures UpFrom(l) <= l.upTimes && 0 <= DownFrom(l) <= l.downTimes
  {
    Share(l.upTimes, l.curDuty, l.maxDuty);
    Share(l.downTimes, l.curDuty, l.maxDuty);
  }

  lemma Share(n: nat, a: nat, b: nat)
    requires a <= b && 0 < b
    ensures 0 <= n * a / b <= n
    ensures a < b && n > 0 ==> n * a / b < n
  {
    var x := n * a;
    var q := x / b;
    assert x == q * b + x % b;
    assert (b - a) * n == n * b - x;
    MultipleIsFar(b - a, n);
    assert (q - n) * b == q * b - n * b;
    MultipleIsFar(q - n, b);
  }

  /** `chgbox_set_led_stu`, for the chosen LED (`self`) or another one. */
  function SetState(l: Led, self: bool, on: bool, flicker: bool, fade: bool): Led
    requires l.maxDuty > 0 && l.curDuty <= l.maxDuty
  {
    MatchedSteps(l);
    var m := l.(idle := false, breTimes := 0);
    if self && on then
      m.(mode := On, upTimes := UP_DEFAULT, flickerCnt := FLICKER_DEFAULT, flicker := flicker && fade,
         stepCnt := if fade then UpFrom(l) else 0, curDuty := if fade then l.curDuty else l.maxDuty)
    else if self then
      m.(mode := Off, downTimes := DOWN_DEFAULT, flickerCnt := FLICKER_DEFAULT, flicker := flicker && fade,
         stepCnt := if fade then DownFrom(l) else 0, curDuty := if fade then l.curDuty else 0)
    else
      m.(mode := Off, downTimes := 20, flicker := false,
         stepCnt := if fade then DownFrom(l) else 0, curDuty := if fade then l.curDuty else 0)
  }

  datatype Speed = Fast | Slow | Same

  /** `chgbox_set_led_bre`. */
  function SetBreathe(l: Led, self: bool, speed: Speed, breathe: bool, times: nat): Led
    requires l.maxDuty > 0 && l.curDuty <= l.maxDuty
  {
    if self then
      var m := match speed
        case Fast => l.(upTimes := 50, lightTimes := 10, downTimes := 50, darkTimes := 10)
        case Slow => l.(upTimes := 200, lightTimes := 40, downTimes := 200, darkTimes := 40)
        case Same => l;
      m.(mode := if breathe then Breathe else Flash, breTimes := times, stepCnt := UpFrom(m), idle := false)
    else
      var m := l.(mode := Off, downTimes := 20);
      MatchedSteps(m);
      m.(stepCnt := DownFrom(m), breTimes := 0, idle := false)
  }

  function SetAllOff(l: Led, fade: bool): Led
    requires l.maxDuty > 0 && l.curDuty <= l.maxDuty
  {
    MatchedSteps(l);
    l.(mode := Off, downTimes := DOWN_DEFAULT, breTimes := 0, idle := false,
       stepCnt := if fade then DownFrom(l) else 0, curDuty := if fade then l.curDuty else 0,
       flicker := l.flicker && fade)
  }

  function SetAllOn(l: Led, fade: bool): Led
    requires l.maxDuty > 0 && l.curDuty <= l.maxDuty
  {
    l.(mode := On, upTimes := UP_DEFAULT, breTimes := 0, idle := false,
       stepCnt := if fade then UpFrom(l) else 0, curDuty := if fade then l.curDuty else l.maxDuty,
       flicker := l.flicker && fade)
  }

  // ---------- control ----------

  /** One step brighter. */
  function RampUp(l: Led): Led
    requires l.upTimes > 0
  {
    var n := U16(l.stepCnt + 1);
    if n >= l.upTimes then l.(stepCnt := 0, curDuty := l.maxDuty)
    else l.(stepCnt := n, curDuty := Fraction(n, l.maxDuty, l.upTimes))
  }

  /** One step darker. */
  function RampDown(l: Led): Led
    requires l.downTimes > 0
  {
    var n := U16(l.stepCnt + 1);
    if n >= l.downTimes then l.(stepCnt := 0, curDuty := 0)
    else l.(stepCnt := n, curDuty := Fraction(l.downTimes - n, l.maxDuty, l.downTimes))
  }

  function HoldFlicker(l: Led): Led {
    if l.flickerCnt == 0 then l
    else l.(flickerCnt := l.flickerCnt - 1, flicker := l.flicker && l.flickerCnt != 1)
  }

  function Spend(l: Led): Led
    requires l.breTimes > 0
  {
    if l.breTimes != FOREVER then l.(breTimes := l.breTimes - 1) else l
  }

  function BreatheStep(l: Led): Led
    requires l.upTimes > 0 && l.downTimes > 0 && l.breTimes > 0
  {
    var n := U16(l.stepCnt + 1);
    match l.phase
    case Up =>
      if n >= l.upTimes then l.(stepCnt := 0, phase := Light)
      else l.(stepCnt := n, curDuty := Fraction(n, l.maxDuty, l.upTimes))
    case Light =>
      if n >= l.lightTimes then l.(stepCnt := 0, phase := Down, curDuty := l.maxDuty)
      else l.(stepCnt := n, curDuty := l.maxDuty)
    case Down =>
      if n >= l.downTimes then l.(stepCnt := 0, phase := Dark)
      else l.(stepCnt := n, curDuty := Fraction(l.downTimes - n, l.maxDuty, l.downTimes))
    case Dark =>
      if n >= l.darkTimes then Spend(l.(stepCnt := 0, phase := Up, curDuty := 0))
      else l.(stepCnt := n, curDuty := 0)
  }

  function FlashStep(l: Led): Led
    requires l.breTimes > 0
  {
    var n := U16(l.stepCnt + 1);
    match l.phase
    case Up =>
      if n >= l.upTimes + l.lightTimes then l.(stepCnt := 0, phase := Down, curDuty := l.maxDuty)
      else l.(stepCnt := n, curDuty := l.maxDuty)
    case Down =>
      if n >= l.downTimes + l.darkTimes then Spend(l.(stepCnt := 0, phase := Up, curDuty := 0))
      else l.(stepCnt := n, curDuty := 0)
    case _ => l.(breTimes := 0, curDuty := 0)
  }

  /** `soft_pwm_led_ctrl`: next state, and whether the LED may sleep. */
  function Control(l: Led): (Led, bool)
    requires l.upTimes > 0 && l.downTimes > 0
  {
    match l.mode
    case On =>
      if l.flicker then (if l.curDuty > 0 then RampDown(l) else HoldFlicker(l), false)
      else if l.curDuty < l.maxDuty then (RampUp(l), false)
      else (l, false)
    case Off =>
      if l.flicker then (if l.curDuty < l.maxDuty then RampUp(l) else HoldFlicker(l), false)
      else if l.curDuty > 0 then (RampDown(l), false)
      else (l, true)
    case Breathe => if l.breTimes == 0 then (l, true) else (BreatheStep(l), false)
    case Flash => if l.breTimes == 0 then (l, true) else (FlashStep(l), false)
  }

  /** One timer interrupt for a LED that is not being reconfigured: lit or not, and the next state. */
  function Tick(l: Led): (Led, bool)
    requires l.upTimes > 0 && l.downTimes > 0
  {
    var lit := l.pCnt < l.curDuty;
    if l.pCnt + 1 >= PWM_MAX then
      var (m, sleepy) := Control(l.(pCnt := 0));
      (m.(idle := sleepy), lit)
    else (l.(pCnt := l.pCnt + 1), lit)
  }

  // ---------- invariants ----------

  /** A brightness fraction below one, computed in 8 bits. */
  function Fraction(n: nat, m: nat, d: nat): nat
    requires d > 0
  {
    U8(n * m / d)
  }

  lemma RampUpKeeps(l: Led)
    requires Inv(l)
    ensures Inv(RampUp(l))
    ensures l.stepCnt + 1 < l.upTimes ==> RampUp(l).curDuty < l.maxDuty
  {
    hide Fraction;
    var n := l.stepCnt + 1;
    assert U16(n) == n;
    if n < l.upTimes {
      Proportion(n, l.maxDuty, l.upTimes);
    }
  }

  lemma RampDownKeeps(l: Led)
    requires Inv(l)
    ensures Inv(RampDown(l))
  {
    hide Fraction;
    var n := l.stepCnt + 1;
    assert U16(n) == n;
    if n < l.downTimes {
      Proportion(l.downTimes - n, l.maxDuty, l.downTimes);
    }
  }

  lemma Proportion(n: nat, m: nat, d: nat)
    requires 0 < n < d && m < 256
    ensures 0 <= Fraction(n, m, d) <= m
    ensures m > 0 ==> Fraction(n, m, d) < m
  {
    Share(m, n, d);
  }

  /** Duty, counters and divisors stay in range under every control step. */
  lemma ControlKeepsInv(l: Led)
    requires Inv(l)
    ensures Inv(Control(l).0) && Control(l).0.pCnt == l.pCnt
  {
    RampUpKeeps(l);
    RampDownKeeps(l);
    if (l.mode == Breathe || l.mode == Flash) && l.breTimes > 0 {
      BreatheKeeps(l);
    }
    hide Fraction, RampUp, RampDown, BreatheStep, FlashStep;
    RampsKeepPwm(l);
  }

  lemma RampsKeepPwm(l: Led)
    requires Inv(l)
    ensures RampUp(l).pCnt == RampDown(l).pCnt == l.pCnt
  {
  }

  lemma BreatheKeeps(l: Led)
    requires Inv(l) && l.breTimes > 0
    ensures Inv(BreatheStep(l)) && BreatheStep(l).pCnt == l.pCnt
    ensures Inv(FlashStep(l)) && FlashStep(l).pCnt == l.pCnt
  {
    FadeKeeps(l);
    FlashKeeps(l);
    hide Inv, BreatheStep, FlashStep;
  }

  lemma FadeKeeps(l: Led)
    requires Inv(l) && l.breTimes > 0
    ensures Inv(BreatheStep(l)) && BreatheStep(l).pCnt == l.pCnt
  {
    var n := l.stepCnt + 1;
    SmallU16(n);
    if n < l.upTimes {
      Proportion(n, l.maxDuty, l.upTimes);
    }
    if n < l.downTimes {
      Proportion(l.downTimes - n, l.maxDuty, l.downTimes);
    }
    hide Fraction, U16;
  }

  lemma FlashKeeps(l: Led)
    requires Inv(l) && l.breTimes > 0
    ensures Inv(FlashStep(l)) && FlashStep(l).pCnt == l.pCnt
  {
    SmallU16(l.stepCnt + 1);
    hide U16;
  }

  /** MAIN: the invariant holds after every interrupt and every setter, in any order. */
  lemma TickKeepsInv(l: Led)
    requires Inv(l)
    ensures Inv(Tick(l).0)
  {
    ControlKeepsInv(l.(pCnt := 0));
    hide Control;
  }

  lemma SettersKeepInv(l: Led, self: bool, on: bool, flicker: bool, fade: bool, speed: Speed, breathe: bool, times: nat)
    requires Inv(l) && times <= FOREVER
    ensures Inv(SetState(l, self, on, flicker, fade))
    ensures Inv(SetBreathe(l, self, speed, breathe, times))
    ensures Inv(SetAllOff(l, fade)) && Inv(SetAllOn(l, fade))
  {
    MatchedSteps(l);
    var m := if speed == Fast then l.(upTimes := 50, lightTimes := 10, downTimes := 50, darkTimes := 10)
             else if speed == Slow then l.(upTimes := 200, lightTimes := 40, downTimes := 200, darkTimes := 40)
             else l;
    MatchedSteps(m);
    MatchedSteps(l.(mode := Off, downTimes := 20));
    hide UpFrom, DownFrom;
  }

  /** Power-on: off, dark, and at the start of everything. */
  lemma InitInv()
    ensures var l := Init();
      && Inv(l) && l.mode == Off && l.phase == Up && l.curDuty == l.stepCnt == l.pCnt == l.breTimes == 0
      && !l.flicker && !l.idle && l.upTimes == l.downTimes == 50 && l.lightTimes == 100 && l.darkTimes == 10
  {
  }

  /** A timer interrupt, or a setter called from anywhere. */
  datatype LedStep =
    | Interrupt
    | State(self: bool, on: bool, flicker: bool, fade: bool)
    | Breathing(self: bool, speed: Speed, breathe: bool, times: nat)
    | AllOff(fade: bool)
    | AllOn(fade: bool)

  function LedNext(l: Led, s: LedStep): Led
    requires l.maxDuty > 0 && l.curDuty <= l.maxDuty && l.upTimes > 0 && l.downTimes > 0
  {
    match s
    case Interrupt => Tick(l).0
    case State(self, on, flicker, fade) => SetState(l, self, on, flicker, fade)
    case Breathing(self, speed, breathe, times) => SetBreathe(l, self, speed, breathe, times)
    case AllOff(fade) => SetAllOff(l, fade)
    case AllOn(fade) => SetAllOn(l, fade)
  }

  lemma LedStepKeepsInv(l: Led, s: LedStep)
    requires Inv(l) && (s.Breathing? ==> s.times <= FOREVER)
    ensures Inv(LedNext(l, s))
  {
    hide Inv, Tick, SetState, SetBreathe, SetAllOff, SetAllOn;
    match s
    case Interrupt => TickKeepsInv(l);
    case State(self, on, flicker, fade) => SettersKeepInv(l, self, on, flicker, fade, Same, false, 0);
    case Breathing(self, speed, breathe, times) => SettersKeepInv(l, self, false, false, false, speed, breathe, times);
    case AllOff(fade) => SettersKeepInv(l, false, false, false, fade, Same, false, 0);
    case AllOn(fade) => SettersKeepInv(l, false, false, false, fade, Same, false, 0);
  }

  /** The state after a run of interrupts and setters; breathing counts fit 16 bits. */
  ghost function AfterRun(l: Led, run: seq<LedStep>): (m: Led)
    requires Inv(l) && forall s :: s in run && s.Breathing? ==> s.times <= FOREVER
    ensures Inv(m)
    decreases |run|
  {
    if run == [] then l
    else
      assert run[0] in run;
      LedStepKeepsInv(l, run[0]);
      AfterRun(LedNext(l, run[0]), run[1..])
  }

  /** MAIN: in every state reachable from power-on, duty, counters and divisors are in range. */
  lemma ReachableInv(run: seq<LedStep>)
    requires forall s :: s in run && s.Breathing? ==> s.times <= FOREVER
    ensures Inv(Init()) && Inv(AfterRun(Init(), run))
  {
    InitInv();
  }

  // ---------- one PWM period ----------

  function LitIn(l: Led, n: nat): nat
    requires l.upTimes > 0 && l.downTimes > 0 && l.pCnt + n <= PWM_MAX
    decreases n
  {
    if n == 0 then 0
    else (if Tick(l).1 then 1 else 0) + if n == 1 then 0 else LitIn(Tick(l).0, n - 1)
  }

  lemma {:induction false} LitCount(l: Led, n: nat)
    requires Inv(l) && l.pCnt + n <= PWM_MAX
    ensures LitIn(l, n) == Max(0, Min(l.pCnt + n, l.curDuty) - l.pCnt)
    decreases n
  {
    if n > 1 {
      LitCount(Tick(l).0, n - 1);
    }
  }

  /** MAIN: a full period is lit for exactly `curDuty` of its 128 ticks. */
  lemma PeriodIsDuty(l: Led)
    requires Inv(l) && l.pCnt == 0
    ensures LitIn(l, 128) == l.curDuty
  {
    LitCount(l, PWM_MAX);
  }

  // ---------- OFF reaches idle ----------

  /** Control steps an OFF LED can still take: finish a flicker up, hold it, then ramp down. */
  function Rank(l: Led): nat {
    if l.flicker then
      if l.curDuty < l.maxDuty then 3 * LONGEST - Min(l.stepCnt, LONGEST)
      else LONGEST + 1 + l.flickerCnt
    else if l.curDuty > 0 then 1 + LONGEST - Min(l.stepCnt, LONGEST)
    else 0
  }

  lemma OffComesCloser(l: Led)
    requires Inv(l) && l.mode == Off && !Control(l).1
    ensures var m := Control(l).0;
      Inv(m) && m.mode == Off && Rank(m) < Rank(l)
  {
    ControlKeepsInv(l);
    RampUpKeeps(l);
    RampDownKeeps(l);
    hide RampUp, RampDown;
    OffRamps(l);
  }

  lemma OffRamps(l: Led)
    requires Inv(l)
    ensures var u := RampUp(l);
      u.flicker == l.flicker && u.flickerCnt == l.flickerCnt && u.mode == l.mode && u.maxDuty == l.maxDuty
      && (u.curDuty == u.maxDuty || u.stepCnt == l.stepCnt + 1)
    ensures var d := RampDown(l);
      d.flicker == l.flicker && d.mode == l.mode && (d.curDuty == 0 || d.stepCnt == l.stepCnt + 1)
  {
    hide Fraction, U16;
    assert U16(l.stepCnt + 1) == l.stepCnt + 1 by {
      SmallU16(l.stepCnt + 1);
    }
  }

  lemma SmallU16(n: nat)
    requires n < TWO16
    ensures U16(n) == n
  {
  }

  ghost function Controls(l: Led, n: nat): Led
    requires Inv(l)
    decreases n
  {
    if n == 0 then l else
      ControlKeepsInv(l);
      Controls(Control(l).0, n - 1)
  }

  /** MAIN: an OFF LED is dark and asleep after at most `Rank` control steps, flicker included. */
  lemma {:induction false} OffReachesIdle(l: Led) returns (n: nat)
    requires Inv(l) && l.mode == Off
    ensures n <= Rank(l) <= 3 * LONGEST
    ensures Inv(Controls(l, n)) && Control(Controls(l, n)).1 && Controls(l, n).curDuty == 0
    decreases Rank(l)
  {
    ControlKeepsInv(l);
    if Control(l).1 {
      n := 0;
    } else {
      OffComesCloser(l);
      n := OffReachesIdle(Control(l).0);
      n := n + 1;
    }
  }

  // ---------- control steps and interrupts ----------

  /** The state after `n` interrupts and nothing else. */
  ghost function Interrupts(l: Led, n: nat): (m: Led)
    requires Inv(l)
    ensures Inv(m)
  {
    AfterRun(l, seq(n, _ => Interrupt))
  }

  lemma InterruptFirst(l: Led, n: nat)
    requires Inv(l) && n > 0
    ensures Inv(Tick(l).0) && Interrupts(l, n) == Interrupts(Tick(l).0, n - 1)
  {
    TickKeepsInv(l);
    var run := seq(n, _ => Interrupt);
    assert run[0] == Interrupt && run[1..] == seq(n - 1, _ => Interrupt);
    hide Tick, Inv;
  }

  lemma NoInterrupts(l: Led)
    requires Inv(l)
    ensures Interrupts(l, 0) == l
  {
  }

  /** Inside a period only the PWM counter moves. */
  lemma {:induction false} WithinPeriod(l: Led, n: nat)
    requires Inv(l) && l.pCnt + n < PWM_MAX
    ensures Interrupts(l, n) == l.(pCnt := l.pCnt + n)
    decreases n
  {
    if n == 0 {
      NoInterrupts(l);
    } else {
      InterruptFirst(l, n);
      assert Tick(l).0 == l.(pCnt := l.pCnt + 1);
      WithinPeriod(Tick(l).0, n - 1);
    }
  }

  lemma {:induction false} InterruptsJoin(l: Led, n: nat, k: nat)
    requires Inv(l)
    ensures Interrupts(l, n + k) == Interrupts(Interrupts(l, n), k)
    decreases n
  {
    if n == 0 {
      NoInterrupts(l);
    } else {
      InterruptFirst(l, n + k);
      InterruptFirst(l, n);
      hide Interrupts, Tick, Inv;
      InterruptsJoin(Tick(l).0, n - 1, k);
      assert n - 1 + k == n + k - 1;
    }
  }

  /** A full period is one control step. */
  lemma PeriodIsControl(l: Led)
    requires Inv(l) && l.pCnt == 0
    ensures Interrupts(l, 128) == Control(l).0.(idle := Control(l).1)
    ensures Inv(Control(l).0) && Control(l).0.pCnt == 0
  {
    ControlKeepsInv(l);
    InterruptsJoin(l, PWM_MAX - 1, 1);
    WithinPeriod(l, PWM_MAX - 1);
    var m := Interrupts(l, PWM_MAX - 1);
    assert m.(pCnt := 0) == l;
    InterruptFirst(m, 1);
    NoInterrupts(Tick(m).0);
    hide Control, Interrupts, Inv;
  }

  lemma RampsIgnoreIdle(l: Led, x: bool)
    requires Inv(l)
    ensures RampUp(l.(idle := x)) == RampUp(l).(idle := x)
    ensures RampDown(l.(idle := x)) == RampDown(l).(idle := x)
    ensures HoldFlicker(l.(idle := x)) == HoldFlicker(l).(idle := x)
  {
    hide Fraction, U16;
  }

  lemma BreathIgnoresIdle(l: Led, x: bool)
    requires Inv(l) && l.breTimes > 0
    ensures BreatheStep(l.(idle := x)) == BreatheStep(l).(idle := x)
  {
    hide Fraction, U16;
    match l.phase
    case Up =>
    case Light =>
    case Down =>
    case Dark =>
  }

  lemma FlashIgnoresIdle(l: Led, x: bool)
    requires Inv(l) && l.breTimes > 0
    ensures FlashStep(l.(idle := x)) == FlashStep(l).(idle := x)
  {
    hide U16;
  }

  /** Control neither reads nor sets the idle flag. */
  lemma ControlIgnoresIdle(l: Led, x: bool)
    requires Inv(l)
    ensures Control(l.(idle := x)) == (Control(l).0.(idle := x), Control(l).1)
  {
    RampsIgnoreIdle(l, x);
    if l.breTimes > 0 {
      BreathIgnoresIdle(l, x);
      FlashIgnoresIdle(l, x);
    }
    hide RampUp, RampDown, HoldFlicker, BreatheStep, FlashStep;
  }

  lemma ControlsFirst(l: Led, n: nat)
    requires Inv(l) && n > 0
    ensures Inv(Control(l).0) && Controls(l, n) == Controls(Control(l).0, n - 1)
  {
    ControlKeepsInv(l);
    hide Control, Inv;
  }

  /** The first of `n + 1` periods. */
  lemma PeriodFirst(l: Led, n: nat)
    requires Inv(l) && l.pCnt == 0
    ensures var m := Control(l).0;
      && Inv(m) && m.pCnt == 0
      && Interrupts(l, PWM_MAX * (n + 1)) == Interrupts(m.(idle := Control(l).1), PWM_MAX * n)
  {
    PeriodIsControl(l);
    InterruptsJoin(l, PWM_MAX, PWM_MAX * n);
    assert PWM_MAX + PWM_MAX * n == PWM_MAX * (n + 1);
  }

  /** MAIN: `n` periods are `n` control steps; the idle flag is the answer of the last one. */
  lemma {:induction false} PeriodsAreControls(l: Led, n: nat)
    requires Inv(l) && l.pCnt == 0
    ensures Inv(Controls(l, n)) && Controls(l, n).pCnt == 0
    ensures Interrupts(l, PWM_MAX * n).(idle := false) == Controls(l, n).(idle := false)
    ensures Interrupts(l, PWM_MAX * (n + 1)).idle == Control(Controls(l, n)).1
    decreases n
  {
    var (m, x) := Control(l);
    hide Control, Controls, Interrupts, Inv;
    if n == 0 {
      FirstPeriod(l);
    } else {
      ControlsFirst(l, n);
      LaterPeriod(l, m, x, n);
      PeriodsAreControls(m, n - 1);
    }
  }

  lemma FirstPeriod(l: Led)
    requires Inv(l) && l.pCnt == 0
    ensures Controls(l, 0) == l && Interrupts(l, PWM_MAX * 0) == l
    ensures Interrupts(l, PWM_MAX * (0 + 1)).idle == Control(l).1
  {
    NoInterrupts(l);
    PeriodIsControl(l);
    hide Control, Interrupts, Inv;
  }

  /** From the second period on the LED goes on as one in the state after the first control step. */
  lemma LaterPeriod(l: Led, m: Led, x: bool, n: nat)
    requires Inv(l) && l.pCnt == 0 && Control(l) == (m, x) && n > 0
    ensures Inv(m) && m.pCnt == 0
    ensures Interrupts(l, PWM_MAX * n).(idle := false) == Interrupts(m, PWM_MAX * (n - 1)).(idle := false)
    ensures Interrupts(l, PWM_MAX * (n + 1)) == Interrupts(m, PWM_MAX * n)
  {
    hide Control, Interrupts, Inv;
    PeriodFirst(l, n - 1);
    PeriodFirst(l, n);
    IdleForgotten(m, x, n - 1);
    IdleForgotten(m, x, n);
  }

  /** What the idle flag was makes no difference, and after a period none at all. */
  lemma {:induction false} IdleForgotten(l: Led, x: bool, n: nat)
    requires Inv(l) && l.pCnt == 0
    ensures Interrupts(l.(idle := x), PWM_MAX * n).(idle := false) == Interrupts(l, PWM_MAX * n).(idle := false)
    ensures n > 0 ==> Interrupts(l.(idle := x), PWM_MAX * n) == Interrupts(l, PWM_MAX * n)
  {
    var k := l.(idle := x);
    if n == 0 {
      NoInterrupts(l);
      NoInterrupts(k);
    } else {
      ControlIgnoresIdle(l, x);
      PeriodFirst(l, n - 1);
      PeriodFirst(k, n - 1);
    }
    hide Control, Interrupts, Inv;
  }

  /** Wherever in a period the LED is, it goes on as if the period had begun `pCnt` interrupts ago. */
  lemma FromPeriodStart(l: Led, n: nat)
    requires Inv(l) && l.pCnt <= PWM_MAX * n
    ensures Inv(l.(pCnt := 0)) && Interrupts(l, PWM_MAX * n - l.pCnt) == Interrupts(l.(pCnt := 0), PWM_MAX * n)
  {
    var start := l.(pCnt := 0);
    WithinPeriod(start, l.pCnt);
    assert start.(pCnt := start.pCnt + l.pCnt) == l;
    InterruptsJoin(start, l.pCnt, PWM_MAX * n - l.pCnt);
    hide Interrupts;
  }

  /** MAIN: so an OFF LED is dark and idle within the rest of its period and 128 interrupts per control step left. */
  lemma OffGoesIdle(l: Led) returns (n: nat)
    requires Inv(l) && l.mode == Off
    ensures n <= Rank(l)
    ensures var m := Interrupts(l, PWM_MAX * (n + 1) - l.pCnt); m.idle && m.curDuty == 0
  {
    var start := l.(pCnt := 0);
    assert Inv(start) && Rank(start) == Rank(l) && l.pCnt <= PWM_MAX;
    hide Control, Interrupts, Inv, Controls, Rank;
    n := OffReachesIdle(start);
    PeriodsAreControls(start, n);
    PeriodsAreControls(start, n + 1);
    var c := Controls(start, n);
    ControlsLast(start, n);
    OffStays(c);
    FromPeriodStart(l, n + 1);
  }

  lemma OffStays(l: Led)
    requires Inv(l) && Control(l).1
    ensures Control(l).0 == l
  {
  }

  lemma {:induction false} ControlsLast(l: Led, n: nat)
    requires Inv(l)
    ensures Inv(Controls(l, n)) && Controls(l, n + 1) == Control(Controls(l, n)).0
    decreases n
  {
    ControlKeepsInv(l);
    if n > 0 {
      hide Control, Inv;
      ControlsLast(Control(l).0, n - 1);
    } else {
      ControlKeepsInv(Control(l).0);
      assert Controls(l, 1) == Controls(Control(l).0, 0);
    }
  }

  // ---------- breathing ----------

  /** Control steps of one whole breath. */
  function Breath(l: Led): nat {
    l.upTimes + l.lightTimes + l.downTimes + l.darkTimes
  }

  /** Control steps left in the present breath. */
  function LeftInBreath(l: Led): int {
    match l.phase
    case Up => Max(1, l.upTimes - l.stepCnt) + l.lightTimes + l.downTimes + l.darkTimes
    case Light => Max(1, l.lightTimes - l.stepCnt) + l.downTimes + l.darkTimes
    case Down => Max(1, l.downTimes - l.stepCnt) + l.darkTimes
    case Dark => Max(1, l.darkTimes - l.stepCnt)
  }

  function LeftInAll(l: Led): int {
    if l.breTimes == 0 then 0 else LeftInBreath(l) + (l.breTimes - 1) * Breath(l)
  }

  lemma Sum(n: int, d: int, b: int)
    ensures (n + d) * b == n * b + d * b
  {
  }

  lemma BreatheUsesOne(l: Led)
    requires Inv(l) && l.mode == Breathe && 0 < l.breTimes < FOREVER
    ensures var m := Control(l).0;
      Inv(m) && m.mode == Breathe && m.breTimes < FOREVER && LeftInAll(m) == LeftInAll(l) - 1
  {
    ControlKeepsInv(l);
    BreathShrinks(l);
    var m := Control(l).0;
    hide Control, Breath, LeftInBreath;
    if m.breTimes != l.breTimes && m.breTimes > 0 {
      Sum(m.breTimes - 1, 1, Breath(l));
    }
  }

  lemma SettingsStay(l: Led)
    requires Inv(l) && l.breTimes > 0
    ensures var m := BreatheStep(l);
      && m.mode == l.mode && m.upTimes == l.upTimes && m.lightTimes == l.lightTimes
      && m.downTimes == l.downTimes && m.darkTimes == l.darkTimes
  {
    hide Fraction, U16;
  }

  lemma EarlyFadeShrinks(l: Led)
    requires Inv(l) && l.breTimes > 0 && l.phase != Dark
    ensures var m := BreatheStep(l);
      m.breTimes == l.breTimes && LeftInBreath(m) == LeftInBreath(l) - 1
  {
    SmallU16(l.stepCnt + 1);
    SettingsStay(l);
    hide Fraction, U16;
    match l.phase
    case Up =>
    case Light =>
    case Down =>
  }

  lemma DarkShrinks(l: Led)
    requires Inv(l) && 0 < l.breTimes < FOREVER && l.phase == Dark
    ensures var m := BreatheStep(l);
      if l.stepCnt + 1 >= l.darkTimes then m.breTimes == l.breTimes - 1 && m.phase == Up && m.stepCnt == 0
      else m.breTimes == l.breTimes && m.phase == Dark && m.stepCnt == l.stepCnt + 1
  {
    SmallU16(l.stepCnt + 1);
    hide U16;
  }

  lemma BreathShrinks(l: Led)
    requires Inv(l) && l.mode == Breathe && 0 < l.breTimes < FOREVER
    ensures var m := Control(l).0;
      && m.mode == Breathe && Breath(m) == Breath(l)
      && if m.breTimes == l.breTimes then LeftInBreath(m) == LeftInBreath(l) - 1
         else m.breTimes == l.breTimes - 1 && LeftInBreath(l) == 1 && LeftInBreath(m) == Breath(m)
  {
    SettingsStay(l);
    if l.phase == Dark {
      DarkShrinks(l);
    } else {
      EarlyFadeShrinks(l);
    }
    hide BreatheStep;
  }

  lemma LeftPositive(l: Led)
    requires Inv(l) && l.breTimes > 0
    ensures LeftInAll(l) > 0
  {
    NonNegative(l.breTimes - 1, Breath(l));
  }

  lemma NonNegative(a: nat, b: nat)
    ensures a * b >= 0
  {
  }

  /** A finite breathing request ends after exactly `LeftInAll` control steps. */
  lemma {:induction false} BreatheLasts(l: Led, n: nat)
    requires Inv(l) && l.mode == Breathe && l.breTimes < FOREVER
    requires n <= LeftInAll(l)
    ensures Inv(Controls(l, n)) && Controls(l, n).mode == Breathe
    ensures Controls(l, n).breTimes == 0 <==> n == LeftInAll(l)
    decreases n
  {
    if l.breTimes > 0 {
      LeftPositive(l);
    }
    if n > 0 {
      BreatheUsesOne(l);
      BreatheLasts(Control(l).0, n - 1);
    }
  }

  /** MAIN: in interrupts, from anywhere in a period: breathing is over with the period in which the last control step left falls. */
  lemma BreathingEnds(l: Led, n: nat)
    requires Inv(l) && l.mode == Breathe && l.breTimes < FOREVER
    requires n <= LeftInAll(l) && l.pCnt <= PWM_MAX * n
    ensures Interrupts(l, PWM_MAX * n - l.pCnt).breTimes == 0 <==> n == LeftInAll(l)
  {
    var start := l.(pCnt := 0);
    assert Inv(start) && LeftInAll(start) == LeftInAll(l);
    hide Interrupts, Inv, Controls, Control, LeftInAll;
    BreatheLasts(start, n);
    PeriodsAreControls(start, n);
    FromPeriodStart(l, n);
  }

  /**
   MAIN: `times` breaths requested in the UP phase take times * (up + light + down + dark) control steps
   minus those the present brightness already stands for; a LED at full brightness still spends one.
   */
  lemma BreatheRequestLasts(l: Led, speed: Speed, times: nat)
    requires Inv(l) && l.phase == Up && 0 < times < FOREVER
    ensures var m := SetBreathe(l, true, speed, true, times);
      && LeftInAll(m) == times * Breath(m) - Min(m.stepCnt, m.upTimes - 1)
      && (LeftInAll(m) == times * Breath(m) - m.stepCnt <==> l.curDuty < l.maxDuty)
  {
    SettersKeepInv(l, true, false, false, false, speed, true, times);
    var m := SetBreathe(l, true, speed, true, times);
    Share(m.upTimes, m.curDuty, m.maxDuty);
    assert m.stepCnt == m.upTimes * m.curDuty / m.maxDuty;
    if l.curDuty == l.maxDuty {
      FullShare(m.upTimes, m.maxDuty);
    }
    assert times * Breath(m) == Breath(m) + (times - 1) * Breath(m);
  }

  lemma FullShare(n: nat, b: nat)
    requires 0 < b
    ensures n * b / b == n
  {
    ModUnique(n * b, n, 0, b);
  }
}
