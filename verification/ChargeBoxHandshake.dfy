/** What the handshakes of the charging case guarantee to the ears and about them. */
module ChargeBoxHandshake {
  import opened ChargeBox
  import opened ChargeBoxSafety

  /** CLOSE_LID sent since the handshake was last armed. */
  function Closes(b: Box): nat {
    Count(b.log.sinceLid, CloseLid)
  }

  /** `charge` is only ever set by the tick that finds the lid handshake finished, after five CLOSE_LID. */
  lemma ChargeOnlyAfterFive(b: Box, s: Step)
    requires Base(b) && Enabled(b, s)
    requires !b.core.charge && Next(b, s).core.charge
    ensures s.Handle? && s.e == Ms200 && b.core.lidCnt == ARMED
    ensures Closes(b) == CLOSE_LID_MAX
  {
    StepKeepsBase(b, s);
    hide SetMode, OnEvent, Count;
    SetModeCharge(b);
    match s
    case Handle(e, shorted, scanOk) =>
      EventCharge(b, e, shorted, scanOk);
    case _ =>
  }

  lemma SetModeCharge(b: Box)
    ensures forall m: Mode :: SetMode(b, m).core.charge ==> b.core.charge
  {
  }

  lemma NoCharge(b: Box)
    ensures HalfSecond(b).core.charge == b.core.charge && AutoShutdownCheck(b).core.charge == b.core.charge
  {
  }

  lemma EventCharge(b: Box, e: Event, shorted: bool, scanOk: bool)
    requires Base(b) && b.core.wait == NotWaiting && !b.core.charge && OnEvent(b, e, shorted, scanOk).core.charge
    ensures e == Ms200 && b.core.mode == Charge && b.core.lidCnt == ARMED
  {
    var c := CommonEvent(b, e, shorted);
    assert c.core == b.core && c.ears == b.ears;
    hide CommonEvent;
    if c.core.mode == Comm {
      hide CommEvent;
      CommCharge(c, e, scanOk);
    } else if c.core.mode == LowPower {
      LowPowerCharge(c, e);
    } else {
      hide ChargeEvent;
      ChargeCharge(c, e, shorted);
    }
  }

  lemma LowPowerCharge(b: Box, e: Event)
    requires !b.core.charge
    ensures !LowPowerEvent(b, e).core.charge
  {
    hide SetMode;
    SetModeCharge(b);
  }

  lemma ChargeCharge(b: Box, e: Event, shorted: bool)
    requires Base(b) && b.core.mode == Charge && !b.core.charge && ChargeEvent(b, e, shorted).core.charge
    ensures e == Ms200 && b.core.lidCnt == ARMED
  {
    hide SetMode, HalfSecond, AutoShutdownCheck, Count;
    SetModeCharge(b);
    SetModeCharge(SetTimer(b, false));
    SetModeCharge(AutoShutdownCheck(b));
    NoCharge(b);
    NoCharge(EndCharge(b));
  }

  lemma CommCharge(b: Box, e: Event, scanOk: bool)
    requires !b.core.charge
    ensures !CommEvent(b, e, scanOk).core.charge
  {
    hide SetMode;
    var c := PairConnecting(b);
    SetModeCharge(SetAutoExit(c, CInt.U8(c.misc.autoExit + 1)));
    SetModeCharge(b);
  }

  // ---------- what the ears are powered by ----------

  lemma SetModeOutputs(b: Box, m: Mode)
    ensures SetMode(b, m).core.boost ==> b.core.boost
    ensures SetMode(b, m).core.pwr ==> b.core.pwr
  {
  }

  lemma HalfSecondOutputs(b: Box)
    ensures HalfSecond(b).core.boost == b.core.boost && HalfSecond(b).core.pwr == b.core.pwr
  {
  }

  lemma ChargeTickOutputs(b: Box, shorted: bool)
    requires Base(b) && b.core.mode == Charge && b.core.wait == NotWaiting
    requires (!b.core.boost && ChargeTick(b, shorted).core.boost) || (!b.core.pwr && ChargeTick(b, shorted).core.pwr)
    ensures Closes(b) == CLOSE_LID_MAX
  {
    hide Count;
  }

  lemma ChargeOutputs(b: Box, e: Event, shorted: bool)
    requires Base(b) && b.core.mode == Charge && b.core.wait == NotWaiting
    requires (!b.core.boost && ChargeEvent(b, e, shorted).core.boost) || (!b.core.pwr && ChargeEvent(b, e, shorted).core.pwr)
    ensures Closes(b) == CLOSE_LID_MAX
  {
    SetModeOutputs(b, Comm);
    SetModeOutputs(b, LowPower);
    SetModeOutputs(SetTimer(b, false), Comm);
    SetModeOutputs(AutoShutdownCheck(b), Comm);
    HalfSecondOutputs(b);
    if e == Ms200 {
      ChargeTickOutputs(b, shorted);
    }
    hide SetMode, ChargeTick, HalfSecond, Count;
  }

  lemma CommOutputs(b: Box, e: Event, scanOk: bool)
    ensures CommEvent(b, e, scanOk).core.boost ==> b.core.boost
    ensures CommEvent(b, e, scanOk).core.pwr ==> b.core.pwr
  {
    hide SetMode;
    var c := PairConnecting(b);
    SetModeOutputs(SetAutoExit(c, CInt.U8(c.misc.autoExit + 1)), if b.sense.lowPower then LowPower else Charge);
    SetModeOutputs(b, if b.sense.lowPower then LowPower else Charge);
    SetModeOutputs(b, LowPower);
  }

  lemma LowPowerOutputs(b: Box, e: Event)
    ensures LowPowerEvent(b, e).core.boost ==> b.core.boost
    ensures LowPowerEvent(b, e).core.pwr ==> b.core.pwr
  {
    hide SetMode;
    SetModeOutputs(b, Comm);
    SetModeOutputs(b, Charge);
  }

  lemma CommonFields(b: Box, e: Event, shorted: bool)
    requires b.core.wait == NotWaiting
    ensures var c := CommonEvent(b, e, shorted);
      && c.core.charge == b.core.charge && c.core.mode == b.core.mode && c.log.sinceLid == b.log.sinceLid
      && c.sense.lidOpen == b.sense.lidOpen && (c.core.wait != NotWaiting ==> e == ExitTemp)
      && ((!b.core.boost && c.core.boost) || (!b.core.pwr && c.core.pwr) ==> b.core.charge)
  {
    match e
    case EnterTemp =>
    case ExitTemp => RestoredFields(b, shorted);
      hide TempRestore;
    case _ =>
  }

  lemma RestoredFields(b: Box, shorted: bool)
    ensures var c := TempRestore(b, shorted);
      && c.core.charge == b.core.charge && c.core.mode == b.core.mode && c.log.sinceLid == b.log.sinceLid
      && c.sense.lidOpen == b.sense.lidOpen && c.core.wait == b.core.wait
  {
  }

  lemma EventOutputs(b: Box, e: Event, shorted: bool, scanOk: bool)
    requires Base(b) && b.core.wait == NotWaiting
    requires var d := OnEvent(b, e, shorted, scanOk); (!b.core.boost && d.core.boost) || (!b.core.pwr && d.core.pwr)
    ensures Closes(b) == CLOSE_LID_MAX
  {
    var c := CommonEvent(b, e, shorted);
    CommonFields(b, e, shorted);
    CommonEventKeeps(b, e, shorted);
    hide CommonEvent, ChargeEvent, CommEvent, LowPowerEvent, Count;
    if !b.core.charge && c.core.wait == NotWaiting {
      match c.core.mode {
        case Charge => ChargeOutputs(c, e, shorted);
        case Comm => CommOutputs(c, e, scanOk);
        case LowPower => LowPowerOutputs(c, e);
      }
    }
  }

  /** MAIN: whatever the tasks do, a step that turns the boost on comes after five CLOSE_LID. */
  lemma BoostOnlyAfterFive(b: Box, s: Step)
    requires Base(b) && Enabled(b, s)
    requires !b.core.boost && Next(b, s).core.boost
    ensures Closes(b) == CLOSE_LID_MAX
  {
    hide OnEvent, SetMode, Count;
    match s
    case Handle(e, shorted, scanOk) => EventOutputs(b, e, shorted, scanOk);
    case Press(k) => SetModeOutputs(b, Comm);
    case _ =>
  }

  /** MAIN: so does a step that turns the 5 V switch on, provided `charge` is still set when the hook switches. */
  lemma PwrOnlyAfterFive(b: Box, s: Step)
    requires Base(b) && Enabled(b, s)
    requires !b.core.pwr && Next(b, s).core.pwr
    requires s == TalkSwitch ==> b.core.charge
    ensures Closes(b) == CLOSE_LID_MAX
  {
    hide OnEvent, SetMode, Count;
    match s
    case Handle(e, shorted, scanOk) => EventOutputs(b, e, shorted, scanOk);
    case Press(k) => SetModeOutputs(b, Comm);
    case _ =>
  }

  /** The steps that clear `charge`: leaving CHARGE, full ears, and the end of a short. */
  predicate ClearsCharge(b: Box, s: Step) {
    || LeavesCharge(b, s)
    || (b.core.mode == Charge && b.core.wait == NotWaiting && s.Handle? && (s.e == EarFull || s.e == ExitCurrent))
  }

  lemma HalfSecondCharge(b: Box)
    ensures HalfSecond(b).core.charge == b.core.charge
  {
  }

  lemma SameCharge(b: Box)
    ensures var c := AutoShutdownCheck(b);
      c.core.charge == b.core.charge && c.core.mode == b.core.mode && c.sense == b.sense
    ensures !AutoShutdownCheck(EndCharge(b)).core.charge && !BeginCharge(b).core.charge
  {
  }

  lemma ChargeTickCharge(b: Box, shorted: bool)
    requires Base(b) && b.core.charge
    ensures ChargeTick(b, shorted).core.charge
  {
    hide Count;
  }

  lemma ChargeEventCharge(b: Box, e: Event, shorted: bool)
    requires Base(b) && b.core.charge && b.core.wait == NotWaiting
    ensures b.core.mode == Charge
    ensures ChargeEvent(b, e, shorted).core.charge <==>
      !(e == EarFull || e == ExitCurrent || e == LidOpened || e == EnterLowPower || e == NeedShutdown
        || (b.sense.lidOpen && (e == UsbIn || e == UsbOut)))
  {
    SameCharge(b);
    assert b.core.mode == Charge;
    if e == Ms200 {
      ChargeTickCharge(b, shorted);
    }
    hide Base, Count, CheckShort, GoToSleep, SetMode, HalfSecond, AutoShutdownCheck, EndCharge, ChargeTick, BeginCharge;
    match e
    case Ms500 => HalfSecondCharge(b);
    case UsbIn => SetModeClears(SetTimer(b, false), Comm);
    case UsbOut => SetModeClears(AutoShutdownCheck(b), Comm);
    case LidOpened => SetModeClears(b, Comm);
    case EnterLowPower => SetModeClears(b, LowPower);
    case NeedShutdown => SetModeClears(b, LowPower);
    case _ =>
  }

  lemma SetModeClears(b: Box, m: Mode)
    ensures b.core.mode == Charge && m != Charge ==> !SetMode(b, m).core.charge
  {
  }

  lemma ClearsChargeIff(b: Box, s: Step)
    requires Base(b) && b.core.charge && Enabled(b, s)
    ensures Next(b, s).core.charge <==> !ClearsCharge(b, s)
  {
    assert b.core.mode == Charge;
    match s
    case Handle(e, shorted, scanOk) =>
      CommonFields(b, e, shorted);
      CommonEventKeeps(b, e, shorted);
      hide CommonEvent, ChargeEvent, Count;
      var c := CommonEvent(b, e, shorted);
      if c.core.wait == NotWaiting {
        ChargeEventCharge(c, e, shorted);
      }
    case Press(k) => SetModeClears(b, Comm);
    case Resume => hide Count;
    case _ =>
  }

  // ---------- the messages sent since lid_cnt was last armed ----------

  /** Going to `m` arms the handshake: CHARGE always, LOWPOWER unless the ears are full. */
  predicate ModeArms(b: Box, m: Mode) {
    m != b.core.mode && (m == Charge || (m == LowPower && !b.ears.earFull))
  }

  /** The steps that arm `lid_cnt`: the end of a short in CHARGE, and the mode changes that do. */
  predicate Arms(b: Box, s: Step) {
    b.core.wait == NotWaiting && s.Handle? &&
    match b.core.mode
    case Charge => s.e == ExitCurrent || ((s.e == EnterLowPower || s.e == NeedShutdown) && ModeArms(b, LowPower))
    case Comm =>
      || ((s.e == LidClosed || (s.e == Ms500 && b.misc.autoExit > COMM_LIFE_MAX))
          && ModeArms(b, if b.sense.lowPower then LowPower else Charge))
      || (s.e == NeedShutdown && ModeArms(b, LowPower))
    case LowPower => s.e == ExitLowPower && !b.sense.lidOpen
  }

  /** The 200 ms events that send a CLOSE_LID. */
  predicate SendsClose(b: Box, s: Step) {
    b.core.wait == NotWaiting && s.Handle? && s.e == Ms200 && b.core.mode != Comm && b.core.lidCnt > ARMED
  }

  /** CLOSE_LID are counted from the last arming; an idle handshake stays idle until it is armed. */
  ghost predicate Counts(b: Box, c: Box, arms: bool, sends: bool) {
    && Closes(c) == (if arms then 0 else Closes(b) + if sends then 1 else 0)
    && (b.core.lidCnt == 0 && !arms ==> c.core.lidCnt == 0)
  }

  lemma SetModeCounts(b: Box, m: Mode)
    ensures Counts(b, SetMode(b, m), ModeArms(b, m), false)
  {
    assert Count([], CloseLid) == 0;
    hide Count;
  }

  lemma SentCounts(b: Box, m: Message)
    ensures Counts(b, Send(b, m), false, m == CloseLid)
  {
    CountSnoc(b.log.sinceLid, m, CloseLid);
    hide Count;
  }

  lemma ChargeLidCounts(b: Box, shorted: bool)
    ensures Counts(b, ChargeLid(b, shorted), false, b.core.lidCnt > ARMED)
    ensures b.core.lidCnt > ARMED ==> ChargeLid(b, shorted).core.lidCnt >= ARMED
    ensures ChargeLid(b, shorted).core.wait == b.core.wait || b.core.lidCnt == ARMED
  {
    SentCounts(b.(core := b.core.(lidCnt := b.core.lidCnt - if b.core.lidCnt > ARMED then 1 else 0)), CloseLid);
    hide Count;
  }

  lemma SendPowerCounts(b: Box)
    ensures Counts(b, ChargeSendPower(b), false, false)
  {
    SentCounts(b.(misc := b.misc.(powerCheck := 0)), PowerClose);
    hide Count;
  }

  lemma ShutCounts(b: Box)
    ensures Counts(b, ChargeShut(b), false, false) && Counts(b, LowPowerShut(b), false, false)
  {
    if b.core.shutCnt > ARMED {
      SentCounts(b.(core := b.core.(shutCnt := b.core.shutCnt - 1)), Shutdown);
    }
    hide Count;
  }

  lemma ChargeRestCounts(b: Box)
    ensures Counts(b, ChargeShut(ChargeSendPower(b)), false, false)
  {
    SendPowerCounts(b);
    ShutCounts(ChargeSendPower(b));
    hide ChargeSendPower, ChargeShut, Closes;
  }

  lemma ChargeTickCounts(b: Box, shorted: bool)
    ensures Counts(b, ChargeTick(b, shorted), false, b.core.lidCnt > ARMED)
  {
    ChargeLidCounts(b, shorted);
    ChargeRestCounts(ChargeLid(b, shorted));
    hide ChargeLid, ChargeShut, ChargeSendPower, Count;
  }

  lemma SmallCounts(b: Box)
    ensures Counts(b, HalfSecond(b), false, false) && Counts(b, AutoShutdownCheck(b), false, false)
    ensures Counts(b, EndCharge(b), false, false) && Counts(b, BeginCharge(b), true, false)
    ensures AutoShutdownCheck(b).core.mode == b.core.mode
  {
    assert Count([], CloseLid) == 0;
    hide Count;
  }

  lemma ChargeCounts(b: Box, e: Event, shorted: bool)
    requires b.core.mode == Charge
    ensures Counts(b, ChargeEvent(b, e, shorted),
                   e == ExitCurrent || ((e == EnterLowPower || e == NeedShutdown) && ModeArms(b, LowPower)),
                   e == Ms200 && b.core.lidCnt > ARMED)
  {
    hide SetMode, ChargeTick, HalfSecond, AutoShutdownCheck, EndCharge, BeginCharge, Count;
    SmallCounts(b);
    match e
    case Ms200 => ChargeTickCounts(b, shorted);
    case UsbIn => SetModeCounts(SetTimer(b, false), Comm);
    case UsbOut => SetModeCounts(AutoShutdownCheck(b), Comm);
    case LidOpened => SetModeCounts(b, Comm);
    case EnterLowPower => SetModeCounts(b, LowPower);
    case NeedShutdown => SetModeCounts(b, LowPower);
    case EarFull => SmallCounts(EndCharge(b));
    case _ =>
  }

  lemma CommCounts(b: Box, e: Event, scanOk: bool)
    requires b.core.mode == Comm
    ensures Counts(b, CommEvent(b, e, scanOk),
                   ((e == LidClosed || (e == Ms500 && b.misc.autoExit > COMM_LIFE_MAX))
                    && ModeArms(b, if b.sense.lowPower then LowPower else Charge))
                   || (e == NeedShutdown && ModeArms(b, LowPower)),
                   false)
  {
    hide SetMode, Count;
    match e
    case Ms200 => SentCounts(b, PowerOpen);
    case Ms500 =>
      SentCounts(b, Pair);
      var c := PairConnecting(b);
      SetModeCounts(SetAutoExit(c, CInt.U8(c.misc.autoExit + 1)), if b.sense.lowPower then LowPower else Charge);
    case UsbIn => SentCounts(b, PowerOpen);
    case UsbOut => SentCounts(b, PowerOpen);
    case LidClosed => SetModeCounts(b, if b.sense.lowPower then LowPower else Charge);
    case NeedShutdown => SetModeCounts(b, LowPower);
    case _ =>
  }

  lemma LowPowerTickCounts(b: Box)
    ensures Counts(b, LowPowerShut(LowPowerLid(b)), false, b.core.lidCnt > ARMED)
  {
    SentCounts(b.(core := b.core.(lidCnt := b.core.lidCnt - if b.core.lidCnt > ARMED then 1 else 0)), CloseLid);
    ShutCounts(LowPowerLid(b));
    hide Count, LowPowerShut;
  }

  lemma LowPowerCounts(b: Box, e: Event)
    requires b.core.mode == LowPower
    ensures Counts(b, LowPowerEvent(b, e), e == ExitLowPower && !b.sense.lidOpen, e == Ms200 && b.core.lidCnt > ARMED)
  {
    hide SetMode, LowPowerShut, LowPowerLid, Count;
    match e
    case Ms200 => LowPowerTickCounts(b);
    case LidOpened => SetModeCounts(b, Comm);
    case ExitLowPower => SetModeCounts(b, if b.sense.lidOpen then Comm else Charge);
    case _ =>
  }

  /** What common handling leaves for the handlers of the modes. */
  predicate SameForModes(b: Box, c: Box) {
    && c.core.mode == b.core.mode && c.core.lidCnt == b.core.lidCnt && c.log.sinceLid == b.log.sinceLid
    && c.sense.lidOpen == b.sense.lidOpen && c.sense.lowPower == b.sense.lowPower && c.misc.autoExit == b.misc.autoExit
  }

  lemma CommonCounts(b: Box, e: Event, shorted: bool)
    requires b.core.wait == NotWaiting
    ensures var c := CommonEvent(b, e, shorted);
      SameForModes(b, c) && (e != ExitTemp ==> c.core.wait == NotWaiting && c.ears == b.ears)
  {
    match e
    case EnterTemp =>
    case ExitTemp =>
      RestoredSame(b, shorted);
      hide TempRestore;
    case _ =>
  }

  lemma RestoredSame(b: Box, shorted: bool)
    ensures SameForModes(b, TempRestore(b, shorted))
  {
  }

  lemma EventCounts(b: Box, e: Event, shorted: bool, scanOk: bool)
    requires b.core.wait == NotWaiting
    ensures var s := Handle(e, shorted, scanOk);
      Counts(b, OnEvent(b, e, shorted, scanOk), Arms(b, s), SendsClose(b, s))
  {
    var c := CommonEvent(b, e, shorted);
    CommonCounts(b, e, shorted);
    hide CommonEvent, ChargeEvent, CommEvent, LowPowerEvent, Count;
    match c.core.mode
    case Charge => ChargeCounts(c, e, shorted);
    case Comm => CommCounts(c, e, scanOk);
    case LowPower => LowPowerCounts(c, e);
  }

  lemma ResumeCounts(b: Box)
    ensures Counts(b, OnResume(b), false, false)
  {
    hide ChargeShut, ChargeSendPower, Count;
    if b.core.wait == WaitLid {
      ChargeRestCounts(ForceDone(OutputOn(StopWaiting(b))));
    }
  }

  /** Every step of every task: CLOSE_LID since the last arming are reset by `Arms`, counted by `SendsClose`. */
  lemma StepCounts(b: Box, s: Step)
    requires Enabled(b, s)
    ensures Counts(b, Next(b, s), Arms(b, s), SendsClose(b, s))
  {
    hide OnEvent, SetMode, Count;
    match s
    case Handle(e, shorted, scanOk) => EventCounts(b, e, shorted, scanOk);
    case Press(k) => SetModeCounts(b, Comm);
    case Resume => ResumeCounts(b);
    case _ =>
  }

  /**
   MAIN: with the hook past its test, it will switch 5 V on whatever one step does in between; five CLOSE_LID
   have been sent by then exactly when that step did not arm the handshake again.  Whether `charge` is still
   set is another question: full ears or an opened lid clear it and leave the five sent.
   */
  lemma SwitchAfterFiveIff(b: Box, s: Step)
    requires Base(b) && b.core.hook == HookSwitching && b.core.charge && Enabled(b, s) && s != TalkSwitch
    ensures var c := Next(b, s);
      && Enabled(c, TalkSwitch) && Next(c, TalkSwitch).core.pwr
      && (Closes(c) == CLOSE_LID_MAX <==> !Arms(b, s))
      && (c.core.charge <==> !ClearsCharge(b, s))
  {
    ClearsChargeIff(b, s);
    HookAfter(b, s);
    StepCounts(b, s);
    hide OnEvent, OnKey, OnResume, Count, ClearsCharge;
  }

  /** Some step of the run arms the handshake. */
  predicate Rearmed(b: Box, run: seq<Step>)
    decreases |run|
  {
    run != [] && (Arms(b, run[0]) || Rearmed(Next(b, run[0]), run[1..]))
  }

  /** CLOSE_LID a run sends after the last step that arms the handshake. */
  function ClosesSince(b: Box, run: seq<Step>): nat
    decreases |run|
  {
    if run == [] then 0
    else
      (if SendsClose(b, run[0]) && !Rearmed(Next(b, run[0]), run[1..]) then 1 else 0)
      + ClosesSince(Next(b, run[0]), run[1..])
  }

  lemma {:induction false} RunCounts(b: Box, run: seq<Step>)
    requires CanRun(b, run)
    ensures Closes(After(b, run)) == ClosesSince(b, run) + if Rearmed(b, run) then 0 else Closes(b)
    ensures b.core.lidCnt == 0 && !Rearmed(b, run) ==> After(b, run).core.lidCnt == 0 && ClosesSince(b, run) == 0
    decreases |run|
  {
    if run != [] {
      StepCounts(b, run[0]);
      NotBoth(b, run[0]);
      hide Next, Enabled, Arms, Closes;
      RunCounts(Next(b, run[0]), run[1..]);
    }
  }

  lemma NotBoth(b: Box, s: Step)
    ensures !(Arms(b, s) && SendsClose(b, s))
  {
  }

  lemma {:induction false} StaysSwitching(b: Box, run: seq<Step>)
    requires Base(b) && CanRun(b, run) && b.core.hook == HookSwitching && TalkSwitch !in run
    ensures After(b, run).core.hook == HookSwitching
    decreases |run|
  {
    if run != [] {
      assert run[0] in run;
      StepKeepsBase(b, run[0]);
      HookAfter(b, run[0]);
      hide Next, Base, Enabled;
      StaysSwitching(Next(b, run[0]), run[1..]);
    }
  }

  /**
   MAIN: likewise for any run between test and switch: five CLOSE_LID have been sent when 5 V comes on exactly
   when the handshake was not armed again in between, or all five were sent again since.
   */
  lemma SwitchAfterRunIff(b: Box, run: seq<Step>)
    requires Base(b) && b.core.hook == HookSwitching && b.core.charge && CanRun(b, run) && TalkSwitch !in run
    ensures var c := After(b, run);
      && Enabled(c, TalkSwitch) && Next(c, TalkSwitch).core.pwr
      && (Closes(c) == CLOSE_LID_MAX <==> !Rearmed(b, run) || ClosesSince(b, run) == CLOSE_LID_MAX)
  {
    RunCounts(b, run);
    StaysSwitching(b, run);
    hide Count, After, Rearmed, ClosesSince;
  }

  /** No step between the hook's test and its switch arms the handshake again. */
  predicate Undisturbed(b: Box, run: seq<Step>)
    decreases |run|
  {
    run != [] ==>
      (b.core.hook == HookSwitching && run[0] != TalkSwitch ==> !Arms(b, run[0])) && Undisturbed(Next(b, run[0]), run[1..])
  }

  /** What the hook has made sure of when it is about to switch. */
  ghost predicate ReadyToSwitch(b: Box) {
    b.core.hook == HookSwitching ==> b.core.lidCnt == 0 && Closes(b) == CLOSE_LID_MAX
  }

  lemma StepKeepsReady(b: Box, s: Step)
    requires Base(b) && ReadyToSwitch(b) && Enabled(b, s)
    requires b.core.hook == HookSwitching && s != TalkSwitch ==> !Arms(b, s)
    ensures Base(Next(b, s)) && ReadyToSwitch(Next(b, s))
  {
    StepKeepsBase(b, s);
    HookAfter(b, s);
    StepCounts(b, s);
    assert s == TalkSwitch ==> Next(b, s).core.hook == HookIdle;
    hide Next, Count, Enabled;
  }

  lemma {:induction false} RunKeepsReady(b: Box, run: seq<Step>)
    requires Base(b) && ReadyToSwitch(b) && CanRun(b, run) && Undisturbed(b, run)
    ensures Base(After(b, run)) && ReadyToSwitch(After(b, run))
    decreases |run|
  {
    hide Base, ReadyToSwitch, Next, Enabled, Arms;
    if run != [] {
      StepKeepsReady(b, run[0]);
      RunKeepsReady(Next(b, run[0]), run[1..]);
    }
  }

  /** MAIN: from power-on, by any such run, a step that turns the 5 V switch on comes after five CLOSE_LID. */
  lemma PoweredAfterFive(lidOpen: bool, lowPower: bool, usb: bool, run: seq<Step>, s: Step)
    requires var a := Init(lidOpen, lowPower, usb); CanRun(a, run) && Undisturbed(a, run)
    requires var b := After(Init(lidOpen, lowPower, usb), run);
      Enabled(b, s) && !b.core.pwr && Next(b, s).core.pwr
    ensures Closes(After(Init(lidOpen, lowPower, usb), run)) == CLOSE_LID_MAX
  {
    var a := Init(lidOpen, lowPower, usb);
    InitInv(lidOpen, lowPower, usb);
    assert ReadyToSwitch(a);
    RunKeepsReady(a, run);
    var b := After(a, run);
    assert s == TalkSwitch ==> b.core.hook == HookSwitching;
    hide Init, Next, Base, After, Count, Enabled;
    if s != TalkSwitch {
      PwrOnlyAfterFive(b, s);
    }
  }

  /** Full ears, or a lid opened, between test and switch: `charge` is cleared, and the five are sent all the same. */
  lemma ClearedYetSent(b: Box, s: Step)
    requires Base(b) && b.core.hook == HookSwitching && b.core.charge && Enabled(b, s)
    requires s.Handle? && (s.e == EarFull || s.e == LidOpened)
    ensures var c := Next(b, s); !c.core.charge && Closes(c) == CLOSE_LID_MAX && Next(c, TalkSwitch).core.pwr
  {
    SwitchAfterFiveIff(b, s);
    hide Next, Count;
  }

  /** The failing case: a short ends between test and switch, and 5 V comes on with no CLOSE_LID sent. */
  lemma PoweredTooEarly(usb: bool)
    ensures var c := Init(false, false, usb);
      var run := TO_SWITCH + [Handle(ExitCurrent, false, false), TalkSwitch];
      && CanRun(c, run)
      && After(c, run).core.pwr && !After(c, run).core.charge && After(c, run).core.lidCnt == ARMED + CLOSE_LID_MAX
      && Closes(After(c, run)) == 0
  {
    var c := Init(false, false, usb);
    SwitchReached(usb);
    var d := After(c, TO_SWITCH);
    var e := Next(d, Handle(ExitCurrent, false, false));
    assert Enabled(d, Handle(ExitCurrent, false, false)) && Enabled(e, TalkSwitch);
    assert e.log.sinceLid == [] && !e.core.charge && e.core.lidCnt == ARMED + CLOSE_LID_MAX;
    var f := Next(e, TalkSwitch);
    assert f.core.pwr && f.log == e.log && f.core.charge == e.core.charge && f.core.lidCnt == e.core.lidCnt;
    hide Next, Enabled;
    OneMore(e, TalkSwitch, []);
    OneMore(d, Handle(ExitCurrent, false, false), [TalkSwitch] + []);
    assert [Handle(ExitCurrent, false, false)] + ([TalkSwitch] + []) == [Handle(ExitCurrent, false, false), TalkSwitch];
    RunsJoin(c, TO_SWITCH, [Handle(ExitCurrent, false, false), TalkSwitch]);
  }

  /** The case only powers itself off from LOWPOWER after the whole CLOSE_LID handshake. */
  lemma PowerOffAfterClose(b: Box, e: Event)
    requires Base(b) && b.core.mode == LowPower && !b.misc.off && LowPowerEvent(b, e).misc.off
    ensures e == NeedShutdown && Closes(b) == CLOSE_LID_MAX
  {
    hide Count;
    OffUntouched(b);
  }

  lemma OffUntouched(b: Box)
    ensures LowPowerShut(LowPowerLid(b)).misc.off == b.misc.off
    ensures forall m: Mode :: SetMode(b, m).misc.off == b.misc.off
  {
    forall m: Mode
      ensures SetMode(b, m).misc.off == b.misc.off
    {
      hide LowPowerShut, LowPowerLid;
    }
  }

  // ---------- entering LOWPOWER ----------

  function Tick(b: Box): Box {
    LowPowerShut(LowPowerLid(b))
  }

  function Ticks(b: Box, n: nat): Box {
    if n == 0 then b else Tick(Ticks(b, n - 1))
  }

  /** A 200 ms event in LOWPOWER mode is one handshake tick. */
  lemma TickIsEvent(b: Box, shorted: bool, scanOk: bool)
    requires b.core.mode == LowPower && b.core.wait == NotWaiting
    ensures Next(b, Handle(Ms200, shorted, scanOk)) == Tick(b)
  {
  }

  function Copies(m: Message, n: nat): (r: seq<Message>)
    ensures |r| == n
  {
    seq(n, _ => m)
  }

  lemma {:induction false} ClosePhase(b: Box, n: nat)
    requires b.core.lidCnt == ARMED + 5 && b.core.shutCnt == 0 && n <= 5
    ensures var c := Ticks(b, n);
      c.core == b.core.(lidCnt := ARMED + 5 - n) && c.misc == b.misc && c.log.sent == b.log.sent + Copies(CloseLid, n)
  {
    if n > 0 {
      ClosePhase(b, n - 1);
      assert Copies(CloseLid, n) == Copies(CloseLid, n - 1) + [CloseLid];
    }
  }

  lemma {:induction false} ShutPhase(b: Box, n: nat)
    requires b.core.lidCnt == ARMED + 5 && b.core.shutCnt == 0 && 6 <= n <= 10
    ensures var c := Ticks(b, n);
      && c.core == b.core.(lidCnt := 0, shutCnt := ARMED + 10 - n) && c.misc == b.misc
      && c.log.sent == b.log.sent + Copies(CloseLid, 5) + Copies(Shutdown, n - 5)
    decreases n
  {
    if n == 6 {
      ClosePhase(b, 5);
      assert Copies(Shutdown, 1) == [Shutdown];
    } else {
      ShutPhase(b, n - 1);
      assert Copies(Shutdown, n - 5) == Copies(Shutdown, n - 6) + [Shutdown];
    }
  }

  /** The same by ticks. */
  lemma GoodbyeTicks(b: Box)
    requires b.core.mode != LowPower && !b.ears.earFull
    ensures var c := SetMode(b, LowPower);
      && (forall n :: 0 <= n <= 10 ==> Ticks(c, n).misc.ports == c.misc.ports)
      && Ticks(c, 11).misc.ports == PortsShut
      && Ticks(c, 11).core.lidCnt == Ticks(c, 11).core.shutCnt == 0
      && Ticks(c, 11).log.sent == b.log.sent + Copies(CloseLid, 5) + Copies(Shutdown, 5)
  {
    var c := SetMode(b, LowPower);
    forall n | 0 <= n <= 10
      ensures Ticks(c, n).misc.ports == c.misc.ports
    {
      if n <= 5 {
        ClosePhase(c, n);
      } else {
        ShutPhase(c, n);
      }
    }
    ShutPhase(c, 10);
  }

  /** 200 ms events and nothing else. */
  predicate OnlyTicks(run: seq<Step>) {
    forall s :: s in run ==> s.Handle? && s.e == Ms200
  }

  lemma {:induction false} TicksAreSteps(b: Box, run: seq<Step>)
    requires b.core.mode == LowPower && b.core.wait == NotWaiting && OnlyTicks(run)
    ensures CanRun(b, run) && After(b, run) == Ticks(b, |run|)
    ensures After(b, run).core.mode == LowPower && After(b, run).core.wait == NotWaiting
    decreases |run|
  {
    if run != [] {
      var n := |run| - 1;
      var init, last := run[..n], run[n];
      assert last in run && run == init + [last];
      TicksAreSteps(b, init);
      var c := After(b, init);
      TickIsEvent(c, last.shorted, last.scanOk);
      TickStays(c);
      assert [last] + [] == [last];
      hide Next, Tick;
      assert Enabled(c, last);
      OneMore(c, last, []);
      RunsJoin(b, init, [last]);
    }
  }

  lemma TickStays(b: Box)
    ensures Tick(b).core.mode == b.core.mode && Tick(b).core.wait == b.core.wait
  {
  }

  /**
   MAIN: LOWPOWER entered with the ears not full sends five CLOSE_LID, then five SHUTDOWN, and shuts
   the ports on tick 11 and no earlier.
   */
  lemma LowPowerGoodbye(b: Box, run: seq<Step>)
    requires b.core.mode != LowPower && b.core.wait == NotWaiting && !b.ears.earFull
    requires OnlyTicks(run) && |run| == 11
    ensures var c := SetMode(b, LowPower);
      && CanRun(c, run)
      && (forall n :: 0 <= n <= 10 ==> After(c, run[..n]).misc.ports == c.misc.ports)
      && After(c, run).misc.ports == PortsShut
      && After(c, run).core.lidCnt == After(c, run).core.shutCnt == 0
      && After(c, run).log.sent == b.log.sent + Copies(CloseLid, 5) + Copies(Shutdown, 5)
  {
    var c := SetMode(b, LowPower);
    GoodbyeTicks(b);
    TicksAreSteps(c, run);
    hide SetMode, Ticks, After, Copies;
    forall n | 0 <= n <= 10
      ensures After(c, run[..n]).misc.ports == c.misc.ports
    {
      TicksAreSteps(c, run[..n]);
    }
  }

  // ---------- ears on line ----------

  function EarOf(b: Box, side: Side): Ear {
    if side == Left then b.ears.left else b.ears.right
  }

  /** The on-line and off-line announcements for one ear, oldest first: true is on-line. */
  function News(posted: seq<Event>, side: Side): seq<bool> {
    if posted == [] then []
    else
      var e := posted[|posted| - 1];
      News(posted[..|posted| - 1], side) +
      if e == EarOnline(side) then [true] else if e == EarOffline(side) then [false] else []
  }

  lemma {:induction false} NewsAdds(p: seq<Event>, q: seq<Event>, side: Side)
    ensures News(p + q, side) == News(p, side) + News(q, side)
    decreases |q|
  {
    if q == [] {
      assert p + q == p;
    } else {
      assert (p + q)[..|p + q| - 1] == p + q[..|q| - 1];
      NewsAdds(p, q[..|q| - 1], side);
    }
  }

  predicate Alternating(s: seq<bool>) {
    forall i :: 0 <= i < |s| ==> s[i] == (i % 2 == 0)
  }

  /** Announcements alternate, starting with on-line; the last one says whether the ear is on line now. */
  ghost predicate EarInv(b: Box, side: Side) {
    var news := News(b.log.posted, side);
    && Alternating(news)
    && (EarOf(b, side).online != 0 <==> |news| % 2 == 1)
    && EarOf(b, side).online <= EAR_OFFLINE_MAX
  }

  /** Steps that do not exchange with the ears announce nothing about them. */
  ghost predicate Quiet(b: Box, c: Box) {
    && c.ears.left.online == b.ears.left.online && c.ears.right.online == b.ears.right.online
    && b.log.posted <= c.log.posted
    && forall i :: |b.log.posted| <= i < |c.log.posted| ==> !c.log.posted[i].EarOnline? && !c.log.posted[i].EarOffline?
  }

  lemma QuietSetMode(b: Box, m: Mode)
    ensures Quiet(b, SetMode(b, m))
  {
  }

  lemma QuietChargeRest(b: Box)
    ensures Quiet(b, ChargeShut(ChargeSendPower(b)))
  {
  }

  lemma QuietChargeLid(b: Box, shorted: bool)
    ensures Quiet(b, ChargeLid(b, shorted))
  {
  }

  lemma QuietHalfSecond(b: Box)
    ensures Quiet(b, HalfSecond(b))
  {
  }

  lemma QuietCharge(b: Box, e: Event, shorted: bool)
    ensures Quiet(b, ChargeEvent(b, e, shorted))
  {
    hide SetMode, ChargeLid, HalfSecond, AutoShutdownCheck, ChargeShut, ChargeSendPower;
    match e
    case Ms200 =>
      QuietChargeLid(b, shorted);
      QuietChargeRest(ChargeLid(b, shorted));
    case Ms500 => QuietHalfSecond(b);
    case UsbIn => QuietSetMode(SetTimer(b, false), Comm);
    case UsbOut =>
      QuietShutdownCheck(b);
      QuietSetMode(AutoShutdownCheck(b), Comm);
    case LidOpened => QuietSetMode(b, Comm);
    case EnterLowPower => QuietSetMode(b, LowPower);
    case NeedShutdown => QuietSetMode(b, LowPower);
    case EarFull => QuietShutdownCheck(EndCharge(b));
    case _ => QuietShutdownCheck(b);
  }

  lemma QuietShutdownCheck(b: Box)
    ensures Quiet(b, AutoShutdownCheck(b)) && AutoShutdownCheck(b).sense == b.sense
  {
  }

  lemma QuietComm(b: Box, e: Event, scanOk: bool)
    ensures Quiet(b, CommEvent(b, e, scanOk))
  {
    hide SetMode;
    var c := PairConnecting(b);
    QuietSetMode(SetAutoExit(c, CInt.U8(c.misc.autoExit + 1)), if b.sense.lowPower then LowPower else Charge);
    QuietSetMode(b, LowPower);
    QuietSetMode(b, Charge);
  }

  lemma QuietLowPower(b: Box, e: Event)
    ensures Quiet(b, LowPowerEvent(b, e))
  {
    hide SetMode;
    QuietSetMode(b, Comm);
    QuietSetMode(b, Charge);
  }

  lemma QuietCommon(b: Box, e: Event, shorted: bool)
    ensures Quiet(b, CommonEvent(b, e, shorted))
  {
  }

  lemma QuietEvent(b: Box, e: Event, shorted: bool, scanOk: bool)
    ensures Quiet(b, OnEvent(b, e, shorted, scanOk))
  {
    var c := CommonEvent(b, e, shorted);
    QuietCommon(b, e, shorted);
    QuietCharge(c, e, shorted);
    QuietComm(c, e, scanOk);
    QuietLowPower(c, e);
    hide CommonEvent, ChargeEvent, CommEvent, LowPowerEvent;
  }

  lemma QuietKey(b: Box, k: Key)
    ensures Quiet(b, OnKey(b, k))
  {
    hide SetMode;
    QuietSetMode(b, Comm);
  }

  lemma QuietResume(b: Box)
    ensures Quiet(b, OnResume(b))
  {
    hide ChargeShut, ChargeSendPower;
    QuietChargeRest(ForceDone(OutputOn(StopWaiting(b))));
  }

  lemma QuietFullDetect(b: Box)
    ensures Quiet(b, OnFullDetect(b))
  {
  }

  lemma QuietStep(b: Box, s: Step)
    requires !s.Exchange?
    ensures Quiet(b, Next(b, s))
  {
    hide OnEvent, OnKey, OnResume, OnFullDetect;
    match s
    case Handle(e, shorted, scanOk) => QuietEvent(b, e, shorted, scanOk);
    case Press(k) => QuietKey(b, k);
    case Resume => QuietResume(b);
    case FullDetect => QuietFullDetect(b);
    case _ =>
  }

  lemma {:induction false} QuietNews(p: seq<Event>, q: seq<Event>, side: Side)
    requires p <= q && forall i :: |p| <= i < |q| ==> !q[i].EarOnline? && !q[i].EarOffline?
    ensures News(q, side) == News(p, side)
    decreases |q|
  {
    if |p| < |q| {
      QuietNews(p, q[..|q| - 1], side);
    } else {
      assert p == q;
    }
  }

  /** The news one ear's answer makes, as seen for either ear. */
  lemma AnswerNews(ear: Ear, heard: bool, from: Side, side: Side)
    ensures News(EarNews(ear, heard, from), side)
         == if from == side && (heard <==> ear.online == 0) && ear.online <= 1 then [heard] else []
  {
    var q := EarNews(ear, heard, from);
    if q != [] {
      assert q[..|q| - 1] == [];
    }
  }

  lemma ExchangeNews(b: Box, heardL: bool, heardR: bool, side: Side)
    ensures var ear := EarOf(b, side);
      var heard := if side == Left then heardL else heardR;
      News(OnExchange(b, heardL, heardR).log.posted, side)
      == News(b.log.posted, side) + if (heard <==> ear.online == 0) && ear.online <= 1 then [heard] else []
  {
    var l, r := EarNews(b.ears.left, heardL, Left), EarNews(b.ears.right, heardR, Right);
    AnswerNews(b.ears.left, heardL, Left, side);
    AnswerNews(b.ears.right, heardR, Right, side);
    NewsAdds(b.log.posted, l, side);
    NewsAdds(b.log.posted + l, r, side);
    hide News, EarNews;
  }

  /** MAIN: every step keeps the announcements alternating and truthful. */
  lemma StepKeepsEarInv(b: Box, s: Step, side: Side)
    requires EarInv(b, side)
    ensures EarInv(Next(b, s), side)
  {
    hide News, OnEvent, OnKey, OnResume, OnFullDetect;
    if s.Exchange? {
      ExchangeNews(b, s.heardL, s.heardR, side);
    } else {
      QuietStep(b, s);
      QuietNews(b.log.posted, Next(b, s).log.posted, side);
      hide Next;
    }
  }

  lemma {:induction false} RunKeepsEarInv(b: Box, run: seq<Step>, side: Side)
    requires EarInv(b, side)
    ensures EarInv(After(b, run), side)
    decreases |run|
  {
    hide EarInv, Next;
    if run != [] {
      StepKeepsEarInv(b, run[0], side);
      RunKeepsEarInv(Next(b, run[0]), run[1..], side);
    }
  }

  /** MAIN: the alternation holds in every state reachable from power-on. */
  lemma ReachableEarInv(lidOpen: bool, lowPower: bool, usb: bool, run: seq<Step>, side: Side)
    ensures EarInv(After(Init(lidOpen, lowPower, usb), run), side)
  {
    InitEarInv(lidOpen, lowPower, usb, side);
    RunKeepsEarInv(Init(lidOpen, lowPower, usb), run, side);
  }

  lemma NewsOfOther(e: Event, side: Side)
    requires !e.EarOnline? && !e.EarOffline?
    ensures News([], side) == [] && News([e], side) == []
  {
    assert [e][..0] == [];
  }

  lemma InitEarInv(lidOpen: bool, lowPower: bool, usb: bool, side: Side)
    ensures EarInv(Init(lidOpen, lowPower, usb), side)
  {
    NewsOfOther(UsbIn, side);
    var b := Init(lidOpen, lowPower, usb);
    assert b.log.posted == (if usb then [UsbIn] else []) && EarOf(b, side).online == 0;
    hide News, Init;
  }

  /** Number of exchanges in a run. */
  function Exchanges(run: seq<Step>): nat {
    if run == [] then 0 else (if run[0].Exchange? then 1 else 0) + Exchanges(run[1..])
  }

  predicate Silent(run: seq<Step>, side: Side) {
    forall s :: s in run && s.Exchange? ==> !(if side == Left then s.heardL else s.heardR)
  }

  lemma SilentStep(b: Box, s: Step, side: Side)
    requires s.Exchange? ==> !(if side == Left then s.heardL else s.heardR)
    ensures EarOf(Next(b, s), side).online
         == CInt.Max(0, EarOf(b, side).online - if s.Exchange? then 1 else 0)
  {
    if !s.Exchange? {
      QuietStep(b, s);
      hide Next;
    }
  }

  /** MAIN: over any run in which an ear stays silent, each exchange costs it one of its four misses. */
  lemma {:induction false} SilentEarGoesOffline(b: Box, run: seq<Step>, side: Side)
    requires Silent(run, side)
    requires EarOf(b, side).online <= EAR_OFFLINE_MAX
    ensures var c := After(b, run);
      && EarOf(c, side).online == CInt.Max(0, EarOf(b, side).online - Exchanges(run))
      && (Exchanges(run) >= CLOSE_LID_MAX - 1 ==> EarOf(c, side).online == 0)
    decreases |run|
  {
    if run != [] {
      assert run[0] in run;
      SilentStep(b, run[0], side);
      hide Next, EarOf;
      SilentEarGoesOffline(Next(b, run[0]), run[1..], side);
    }
  }

  /** `EAR_FULL` is only announced when forced charging is over and no ear on line is still charging. */
  lemma FullDetectSound(b: Box)
    requires b.core.mode == Charge && OnFullDetect(b).log.posted != b.log.posted
    ensures var c := OnFullDetect(b);
      && c.ears.earFull && c.ears.forceCharge == 0
      && (c.ears.left.online == 0 || c.ears.leftFull) && (c.ears.right.online == 0 || c.ears.rightFull)
  {
  }
}
