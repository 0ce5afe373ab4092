/** Exactly when the boost and the 5 V switch of the charging case go on and off, whatever the tasks do. */
module ChargeBoxOutputs {
  import opened ChargeBox
  import ChargeBoxHandshake
  import opened ChargeBoxSafety

  /** Main-task handling of an event, not held up by the power mutex. */
  predicate Handles(b: Box, s: Step, e: Event) {
    s.Handle? && s.e == e && b.core.wait == NotWaiting
  }

  /** The lid handshake is over: nothing is short or hot, and the ears are not being talked to. */
  predicate ChargingStarts(b: Box, s: Step) {
    && Handles(b, s, Ms200) && b.core.mode == Charge && b.core.lidCnt == 0x80
    && !b.sense.currentLimit && !s.shorted && !b.sense.tempLimit && b.core.hook == HookIdle
  }

  /** Temperature protection is over during charging, with a short flagged - then, and only then, the source resumes. */
  predicate ChargingResumes(b: Box, s: Step) {
    && Handles(b, s, ExitTemp) && b.core.charge && b.core.hook == HookIdle
    && (b.sense.currentLimit || s.shorted)
  }

  /** A handler that waited for the mutex goes on to do one or the other. */
  predicate WaitEnds(b: Box, s: Step) {
    s == Resume && match b.core.wait
      case NotWaiting => false
      case WaitLid => true
      case WaitTemp(shorted) => b.sense.currentLimit || shorted
  }

  /** The steps after which both are on. */
  predicate SwitchesOn(b: Box, s: Step) {
    ChargingStarts(b, s) || ChargingResumes(b, s) || WaitEnds(b, s)
  }

  /** The steps after which both are off: full ears, a short, and leaving CHARGE. */
  predicate SwitchesOff(b: Box, s: Step) {
    || (b.core.mode == Charge && (Handles(b, s, EarFull) || Handles(b, s, EnterCurrent)))
    || (s == ShortInterrupt && !b.sense.currentLimit)
    || LeavesCharge(b, s)
  }

  /** Both outputs, from those of `b`. */
  ghost predicate Outputs(b: Box, c: Box, on: bool, off: bool) {
    c.core.boost == (on || (b.core.boost && !off)) && c.core.pwr == (on || (b.core.pwr && !off))
  }

  lemma SetModeOutputs(b: Box, m: Mode)
    ensures Outputs(b, SetMode(b, m), false, b.core.mode == Charge && m != Charge)
  {
  }

  lemma RestOutputs(b: Box)
    ensures Outputs(b, ChargeShut(ChargeSendPower(b)), false, false)
  {
  }

  lemma HalfSecondOutputs(b: Box)
    ensures Outputs(b, HalfSecond(b), false, false)
  {
  }

  lemma SmallOutputs(b: Box)
    ensures Outputs(b, AutoShutdownCheck(b), false, false) && AutoShutdownCheck(b).core.mode == b.core.mode
    ensures AutoShutdownCheck(b).sense == b.sense
    ensures Outputs(b, EndCharge(b), false, true) && Outputs(b, BeginCharge(b), false, false)
  {
  }

  lemma LidOutputs(b: Box, shorted: bool)
    requires b.core.wait == NotWaiting
    ensures Outputs(b, ChargeLid(b, shorted),
                    b.core.lidCnt == 0x80 && !b.sense.currentLimit && !shorted && !b.sense.tempLimit && b.core.hook == HookIdle,
                    false)
  {
  }

  lemma TickOutputs(b: Box, shorted: bool)
    requires b.core.wait == NotWaiting
    ensures Outputs(b, ChargeTick(b, shorted),
                    b.core.lidCnt == 0x80 && !b.sense.currentLimit && !shorted && !b.sense.tempLimit && b.core.hook == HookIdle,
                    false)
  {
    LidOutputs(b, shorted);
    RestOutputs(ChargeLid(b, shorted));
    hide ChargeLid, ChargeShut, ChargeSendPower;
  }

  /** The events that leave CHARGE. */
  predicate LeavesOn(b: Box, e: Event) {
    e == LidOpened || e == EnterLowPower || e == NeedShutdown || (b.sense.lidOpen && (e == UsbIn || e == UsbOut))
  }

  lemma OtherDecision(b: Box, e: Event, shorted: bool, scanOk: bool)
    requires b.core.mode == Charge && b.core.wait == NotWaiting
    ensures var s := Handle(e, shorted, scanOk);
      && (e != Ms200 ==> !ChargingStarts(b, s))
      && (SwitchesOff(b, s) <==> e == EarFull || e == EnterCurrent || LeavesOn(b, e))
  {
  }

  lemma LeavingOutputs(b: Box, e: Event, shorted: bool)
    requires b.core.mode == Charge && ModeEvent(e)
    ensures Outputs(b, ChargeEvent(b, e, shorted), false, LeavesOn(b, e))
  {
    hide ChargeTick, SetMode, HalfSecond, AutoShutdownCheck, EndCharge, BeginCharge;
    SmallOutputs(b);
    match e
    case UsbIn => SetModeOutputs(SetTimer(b, false), Comm);
    case UsbOut => SetModeOutputs(AutoShutdownCheck(b), Comm);
    case LidOpened => SetModeOutputs(b, Comm);
    case EnterLowPower => SetModeOutputs(b, LowPower);
    case NeedShutdown => SetModeOutputs(b, LowPower);
  }

  lemma StayingOutputs(b: Box, e: Event, shorted: bool)
    requires b.core.mode == Charge && !ModeEvent(e) && e != Ms200
    ensures Outputs(b, ChargeEvent(b, e, shorted), false, e == EarFull || e == EnterCurrent)
  {
    hide ChargeTick, SetMode, HalfSecond, AutoShutdownCheck, EndCharge, BeginCharge;
    SmallOutputs(b);
    HalfSecondOutputs(b);
    SmallOutputs(EndCharge(b));
  }

  lemma ChargeOutputs(b: Box, e: Event, shorted: bool, scanOk: bool)
    requires b.core.mode == Charge && b.core.wait == NotWaiting
    ensures var s := Handle(e, shorted, scanOk);
      Outputs(b, ChargeEvent(b, e, shorted), ChargingStarts(b, s), SwitchesOff(b, s))
  {
    OtherDecision(b, e, shorted, scanOk);
    if e == Ms200 {
      TickOutputs(b, shorted);
      hide ChargeTick, SwitchesOff;
    } else {
      hide ChargingStarts, SwitchesOff, ChargeEvent;
      if ModeEvent(e) {
        LeavingOutputs(b, e, shorted);
      } else {
        StayingOutputs(b, e, shorted);
      }
    }
  }

  lemma CommOutputs(b: Box, e: Event, scanOk: bool)
    requires b.core.mode == Comm
    ensures Outputs(b, CommEvent(b, e, scanOk), false, false)
  {
    hide SetMode;
    var c := PairConnecting(b);
    SetModeOutputs(SetAutoExit(c, CInt.U8(c.misc.autoExit + 1)), if b.sense.lowPower then LowPower else Charge);
    SetModeOutputs(b, if b.sense.lowPower then LowPower else Charge);
    SetModeOutputs(b, LowPower);
  }

  lemma LowPowerOutputs(b: Box, e: Event)
    requires b.core.mode == LowPower
    ensures Outputs(b, LowPowerEvent(b, e), false, false)
  {
    hide SetMode;
    SetModeOutputs(b, Comm);
    SetModeOutputs(b, Charge);
  }

  lemma RestoreOutputs(b: Box, shorted: bool)
    ensures Outputs(b, TempRestore(b, shorted), b.sense.currentLimit || shorted, false)
    ensures var c := TempRestore(b, shorted); c.core.mode == b.core.mode && c.core.wait == b.core.wait
  {
  }

  /** What common handling does before the handler of the mode. */
  lemma CommonOutputs(b: Box, e: Event, shorted: bool, scanOk: bool)
    requires b.core.wait == NotWaiting
    ensures var c := CommonEvent(b, e, shorted);
      var s := Handle(e, shorted, scanOk);
      && c.core.boost == (b.core.boost || ChargingResumes(b, s))
      && c.core.pwr == ((b.core.pwr && !(e == EnterTemp && b.core.charge)) || ChargingResumes(b, s))
      && c.core.mode == b.core.mode && c.core.lidCnt == b.core.lidCnt && c.core.hook == b.core.hook
      && c.sense.tempLimit == b.sense.tempLimit && c.sense.lidOpen == b.sense.lidOpen
      && (e != UsbIn && e != ExitTemp ==> c.sense.currentLimit == b.sense.currentLimit)
      && (e != ExitTemp ==> c.core.wait == NotWaiting)
  {
    match e
    case EnterTemp =>
    case ExitTemp =>
      RestoreOutputs(b, shorted);
      RestoredRest(b, shorted);
      hide TempRestore;
    case UsbIn =>
    case _ =>
  }

  lemma RestoredRest(b: Box, shorted: bool)
    ensures var c := TempRestore(b, shorted);
      && c.core.lidCnt == b.core.lidCnt && c.core.hook == b.core.hook
      && c.sense.tempLimit == b.sense.tempLimit && c.sense.lidOpen == b.sense.lidOpen
  {
  }

  /** What the handlers of the modes make of the state common handling leaves. */
  lemma ModeOutputs(c: Box, e: Event, shorted: bool, scanOk: bool, d: Box)
    requires c.core.wait == NotWaiting
    requires d == match c.core.mode
      case Charge => ChargeEvent(c, e, shorted)
      case Comm => CommEvent(c, e, scanOk)
      case LowPower => LowPowerEvent(c, e)
    ensures var s := Handle(e, shorted, scanOk);
      Outputs(c, d, ChargingStarts(c, s), SwitchesOff(c, s))
  {
    hide ChargeEvent, CommEvent, LowPowerEvent;
    match c.core.mode
    case Charge => ChargeOutputs(c, e, shorted, scanOk);
    case Comm => CommOutputs(c, e, scanOk);
    case LowPower => LowPowerOutputs(c, e);
  }

  /** Common handling changes nothing that decides about the outputs afterwards. */
  lemma SameDecision(b: Box, e: Event, shorted: bool, scanOk: bool)
    requires b.core.wait == NotWaiting && CommonEvent(b, e, shorted).core.wait == NotWaiting
    ensures var c := CommonEvent(b, e, shorted);
      var s := Handle(e, shorted, scanOk);
      && (ChargingStarts(c, s) <==> ChargingStarts(b, s)) && (SwitchesOff(c, s) <==> SwitchesOff(b, s))
      && (e != ExitTemp ==> !ChargingResumes(b, s)) && (e != Ms200 ==> !ChargingStarts(b, s))
  {
    CommonOutputs(b, e, shorted, scanOk);
    hide CommonEvent;
  }

  lemma EventOutputs(b: Box, e: Event, shorted: bool, scanOk: bool)
    requires b.core.wait == NotWaiting
    ensures var s := Handle(e, shorted, scanOk);
      var d := OnEvent(b, e, shorted, scanOk);
      && d.core.boost == (SwitchesOn(b, s) || (b.core.boost && !SwitchesOff(b, s)))
      && d.core.pwr == (SwitchesOn(b, s) || (b.core.pwr && !SwitchesOff(b, s) && !(e == EnterTemp && b.core.charge)))
  {
    var s := Handle(e, shorted, scanOk);
    var c, d := CommonEvent(b, e, shorted), OnEvent(b, e, shorted, scanOk);
    CommonOutputs(b, e, shorted, scanOk);
    hide CommonEvent, ChargeEvent, CommEvent, LowPowerEvent;
    if c.core.wait == NotWaiting {
      SameDecision(b, e, shorted, scanOk);
      ModeOutputs(c, e, shorted, scanOk, d);
      hide ChargingStarts, OnEvent;
      assert e == ExitTemp ==> !SwitchesOff(b, s);
      hide SwitchesOff;
    } else {
      assert e == ExitTemp && d == c;
    }
  }

  lemma ResumeOutputs(b: Box)
    requires b.core.wait != NotWaiting
    ensures Outputs(b, OnResume(b), WaitEnds(b, Resume), false)
  {
    hide ChargeShut, ChargeSendPower, TempRestore;
    match b.core.wait
    case NotWaiting =>
    case WaitLid => RestOutputs(ForceDone(OutputOn(StopWaiting(b))));
    case WaitTemp(shorted) => RestoreOutputs(StopWaiting(b), shorted);
  }

  /**
   MAIN: after any step of any task the boost is on exactly if the step switches both on, or it was on and the
   step neither switches both off nor is the temperature timeout away from external power.
   */
  lemma BoostIff(b: Box, s: Step)
    requires Enabled(b, s)
    ensures Next(b, s).core.boost <==>
      SwitchesOn(b, s) || (b.core.boost && !SwitchesOff(b, s) && !(s == TempTimeout && !b.sense.usb && !b.sense.wireless))
  {
    hide OnEvent, OnResume, SetMode;
    match s
    case Handle(e, shorted, scanOk) => EventOutputs(b, e, shorted, scanOk);
    case Press(k) => SetModeOutputs(b, Comm);
    case Resume => ResumeOutputs(b);
    case _ =>
  }

  /**
   MAIN: and the 5 V switch exactly if the step switches both on or is the hook's, or it was on and the step is
   none of: switching both off, temperature protection and the start of a talk while charging.
   */
  lemma PwrIff(b: Box, s: Step)
    requires Enabled(b, s)
    ensures Next(b, s).core.pwr <==>
      SwitchesOn(b, s) || s == TalkSwitch
      || (b.core.pwr && !SwitchesOff(b, s) && !(b.core.charge && (Handles(b, s, EnterTemp) || s == TalkStart)))
  {
    hide OnEvent, OnResume, SetMode;
    match s
    case Handle(e, shorted, scanOk) => EventOutputs(b, e, shorted, scanOk);
    case Press(k) => SetModeOutputs(b, Comm);
    case Resume => ResumeOutputs(b);
    case _ =>
  }

  /** MAIN: full ears, a short and leaving CHARGE end with both off; temperature protection while charging with 5 V off. */
  lemma ChargingStops(b: Box, s: Step)
    requires Base(b) && Enabled(b, s)
    ensures b.core.mode == Charge && (Handles(b, s, EarFull) || Handles(b, s, EnterCurrent)) ==>
      !Next(b, s).core.boost && !Next(b, s).core.pwr
    ensures s == ShortInterrupt && !b.sense.currentLimit ==> !Next(b, s).core.boost && !Next(b, s).core.pwr
    ensures b.core.mode == Charge && Next(b, s).core.mode != Charge ==> !Next(b, s).core.boost && !Next(b, s).core.pwr
    ensures b.core.charge && Handles(b, s, EnterTemp) ==> !Next(b, s).core.pwr
  {
    BoostIff(b, s);
    PwrIff(b, s);
    if b.core.mode == Charge {
      LeavesChargeIff(b, s);
    }
    hide Next, Base;
  }

  /**
   The end of temperature protection brings 5 V back exactly if a short is flagged or seen; without one the case
   takes the ears for full.
   */
  lemma ResumesIffShort(b: Box, s: Step)
    requires Enabled(b, s) && Handles(b, s, ExitTemp) && b.core.charge && b.core.hook == HookIdle && !b.core.pwr
    ensures Next(b, s).core.pwr <==> b.sense.currentLimit || s.shorted
  {
    PwrIff(b, s);
    hide Next;
  }

  // ---------- charging stays off ----------

  /** Not charging, not about to, and nothing waiting. */
  ghost predicate Dark(b: Box) {
    !b.core.boost && !b.core.pwr && !b.core.charge && b.core.lidCnt == 0 && b.core.wait == NotWaiting
  }

  lemma StepKeepsDark(b: Box, s: Step)
    requires Base(b) && Dark(b) && Enabled(b, s) && !ChargeBoxHandshake.Arms(b, s) && s != TalkSwitch
    ensures Base(Next(b, s)) && Dark(Next(b, s))
  {
    StepKeepsBase(b, s);
    ChargeBoxHandshake.StepCounts(b, s);
    BoostIff(b, s);
    PwrIff(b, s);
    hide Next, ChargeBoxHandshake.Arms, Count;
    if Next(b, s).core.charge {
      ChargeBoxHandshake.ChargeOnlyAfterFive(b, s);
    }
  }

  /** MAIN: from there, over any run, both stay off until the handshake is armed again or the hook switches. */
  lemma {:induction false} StaysDark(b: Box, run: seq<Step>)
    requires Base(b) && Dark(b) && CanRun(b, run) && !ChargeBoxHandshake.Rearmed(b, run) && TalkSwitch !in run
    ensures Dark(After(b, run))
    decreases |run|
  {
    if run != [] {
      assert run[0] in run;
      hide Base, Dark, Next, Enabled, ChargeBoxHandshake.Arms;
      StepKeepsDark(b, run[0]);
      StaysDark(Next(b, run[0]), run[1..]);
    }
  }

  /** MAIN: full ears in CHARGE lead there. */
  lemma FullEarsGoDark(b: Box, s: Step)
    requires Base(b) && Enabled(b, s) && b.core.mode == Charge && Handles(b, s, EarFull)
    ensures Base(Next(b, s)) && Dark(Next(b, s)) && Next(b, s).core.shutCnt == 0x85
  {
    StepKeepsBase(b, s);
    ChargingStops(b, s);
    hide Base;
    FullEarsFields(b, s.shorted);
    assert Next(b, s) == AutoShutdownCheck(EndCharge(b));
  }

  lemma FullEarsFields(b: Box, shorted: bool)
    ensures var c := AutoShutdownCheck(EndCharge(b));
      !c.core.charge && c.core.lidCnt == 0 && c.core.shutCnt == 0x85 && c.core.wait == b.core.wait
  {
  }
}
