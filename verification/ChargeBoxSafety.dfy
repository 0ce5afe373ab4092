/** Invariants of the charging-case controller over every interleaving of its tasks. */
module ChargeBoxSafety {
  import opened CInt
  import opened ChargeBox

  function Count(s: seq<Message>, m: Message): nat {
    if s == [] then 0 else Count(s[..|s| - 1], m) + if s[|s| - 1] == m then 1 else 0
  }

  lemma CountSnoc(s: seq<Message>, x: Message, m: Message)
    ensures Count(s + [x], m) == Count(s, m) + if x == m then 1 else 0
  {
    assert (s + [x])[..|s|] == s;
  }

  /** A handshake counter is idle or armed with at most five messages to go. */
  predicate Handshake(cnt: nat) {
    cnt == 0 || ARMED <= cnt <= ARMED + 5
  }

  /** The boost is on only in CHARGE mode, and `charge` is set only there and once both handshakes are over. */
  ghost predicate BoostSafe(c: Core) {
    && (c.boost ==> c.mode == Charge)
    && (c.charge ==> c.mode == Charge && c.lidCnt == 0 && c.shutCnt == 0)
  }

  /** The 5 V switch is on, or about to be switched on, only in CHARGE mode. */
  ghost predicate PwrSafe(c: Core) {
    && (c.pwr ==> c.mode == Charge)
    && (c.hook == HookSwitching ==> c.mode == Charge)
  }

  ghost predicate HandshakesSafe(c: Core) {
    && Handshake(c.lidCnt) && Handshake(c.shutCnt)
    && !(c.lidCnt != 0 && c.shutCnt != 0)
    && (c.mode == Comm ==> c.lidCnt == 0 && c.shutCnt == 0)
  }

  ghost predicate ModesSafe(c: Core) {
    && (c.pairStatus != 0 ==> c.mode == Comm) && c.pairStatus <= 2
    && (c.mode == Comm ==> !c.shutdownTimer)
    && (c.wait != NotWaiting ==> c.charge)
  }

  /** Messages sent since arming plus messages still to send make five. */
  ghost predicate Conserved(c: Core, closes: nat, shuts: nat) {
    && (c.lidCnt != 0 ==> closes + c.lidCnt == ARMED + CLOSE_LID_MAX)
    && (c.shutCnt != 0 ==> shuts + c.shutCnt == ARMED + SHUT_DOWN_MAX)
    && (c.charge ==> closes == CLOSE_LID_MAX)
    && (c.mode == LowPower && c.shutCnt != 0 ==> closes == CLOSE_LID_MAX)
  }

  ghost predicate CoreSafe(c: Core, closes: nat, shuts: nat) {
    BoostSafe(c) && HandshakesSafe(c) && ModesSafe(c) && Conserved(c, closes, shuts)
  }

  /** What holds whatever the tasks do to each other. */
  ghost predicate Base(b: Box) {
    CoreSafe(b.core, Count(b.log.sinceLid, CloseLid), Count(b.log.sinceShut, Shutdown))
  }

  /** What holds besides as long as no step takes the controller out of CHARGE under the hook. */
  ghost predicate Inv(b: Box) {
    Base(b) && PwrSafe(b.core)
  }

  lemma InitInv(lidOpen: bool, lowPower: bool, usb: bool)
    ensures Inv(Init(lidOpen, lowPower, usb))
  {
  }

  /** A step that takes the controller out of CHARGE mode. */
  predicate LeavesCharge(b: Box, s: Step) {
    b.core.mode == Charge && b.core.wait == NotWaiting &&
    match s
    case Handle(e, _, _) =>
      e == LidOpened || e == EnterLowPower || e == NeedShutdown || (b.sense.lidOpen && (e == UsbIn || e == UsbOut))
    case Press(k) => k == Click && b.sense.lidOpen
    case _ => false
  }

  lemma LeavesChargeIff(b: Box, s: Step)
    requires Enabled(b, s) && b.core.mode == Charge
    ensures Next(b, s).core.mode != Charge <==> LeavesCharge(b, s)
  {
    match s
    case Handle(e, shorted, scanOk) =>
      CommonEventMode(b, e, shorted);
      var c := CommonEvent(b, e, shorted);
      if c.core.wait == NotWaiting {
        ChargeEventMode(c, e, shorted);
      }
    case Resume => ResumeMode(b);
    case _ =>
  }

  lemma CommonEventMode(b: Box, e: Event, shorted: bool)
    ensures var c := CommonEvent(b, e, shorted);
      && c.core.mode == b.core.mode && c.core.hook == b.core.hook && c.sense.lidOpen == b.sense.lidOpen
      && (c.core.wait != b.core.wait ==> e == ExitTemp)
  {
  }

  lemma SetModeMode(b: Box, m: Mode)
    ensures SetMode(b, m).core.mode == m && SetMode(b, m).core.hook == b.core.hook
  {
  }

  lemma ChargeTickMode(b: Box, shorted: bool)
    requires b.core.mode == Charge
    ensures ChargeTick(b, shorted).core.mode == Charge && ChargeTick(b, shorted).core.hook == b.core.hook
  {
    ChargeLidMode(b, shorted);
    hide ChargeLid;
  }

  lemma ChargeLidMode(b: Box, shorted: bool)
    requires b.core.mode == Charge
    ensures ChargeLid(b, shorted).core.mode == Charge && ChargeLid(b, shorted).core.hook == b.core.hook
  {
  }

  lemma HalfSecondMode(b: Box)
    ensures HalfSecond(b).core.mode == b.core.mode && HalfSecond(b).core.hook == b.core.hook
  {
  }

  lemma ResumeMode(b: Box)
    ensures OnResume(b).core.mode == b.core.mode
  {
  }

  /** Which events leave CHARGE. */
  lemma ChargeEventMode(b: Box, e: Event, shorted: bool)
    requires b.core.mode == Charge
    ensures ChargeEvent(b, e, shorted).core.hook == b.core.hook
    ensures ChargeEvent(b, e, shorted).core.mode != Charge <==>
      e == LidOpened || e == EnterLowPower || e == NeedShutdown || (b.sense.lidOpen && (e == UsbIn || e == UsbOut))
  {
    hide SetMode, ChargeTick, HalfSecond;
    ChargeTickMode(b, shorted);
    HalfSecondMode(b);
    SetModeMode(b, Comm);
    SetModeMode(b, LowPower);
    SetModeMode(SetTimer(b, false), Comm);
    SetModeMode(AutoShutdownCheck(b), Comm);
  }

  lemma SetModeKeeps(b: Box, m: Mode)
    requires Base(b) && b.core.wait == NotWaiting
    ensures Base(SetMode(b, m))
  {
    assert Count([], CloseLid) == 0;
    hide Count;
  }

  lemma SendKeeps(b: Box, m: Message)
    requires Base(b) && m != CloseLid && m != Shutdown
    ensures Base(Send(b, m))
  {
    CountSnoc(b.log.sinceLid, m, CloseLid);
    CountSnoc(b.log.sinceShut, m, Shutdown);
  }

  lemma LidTickKeeps(b: Box)
    requires Base(b) && b.core.lidCnt > ARMED
    ensures Base(Send(b.(core := b.core.(lidCnt := b.core.lidCnt - 1)), CloseLid))
  {
    CountSnoc(b.log.sinceLid, CloseLid, CloseLid);
    CountSnoc(b.log.sinceShut, CloseLid, Shutdown);
  }

  lemma ShutTickKeeps(b: Box)
    requires Base(b) && b.core.shutCnt > ARMED
    ensures Base(ShutTick(b))
  {
    CountSnoc(b.log.sinceLid, Shutdown, CloseLid);
    CountSnoc(b.log.sinceShut, Shutdown, Shutdown);
  }

  lemma ChargeLidKeeps(b: Box, shorted: bool)
    requires Base(b) && b.core.mode == Charge && b.core.wait == NotWaiting
    ensures var c := ChargeLid(b, shorted);
      Base(c) && c.core.mode == Charge && (c.core.wait == NotWaiting || c.core.wait == WaitLid)
  {
    if b.core.lidCnt > ARMED {
      LidTickKeeps(b);
    }
  }

  lemma ChargeRestKeeps(b: Box)
    requires Base(b) && b.core.mode == Charge
    ensures Base(ChargeShut(ChargeSendPower(b)))
  {
    SendKeeps(b.(misc := b.misc.(powerCheck := 0)), PowerClose);
    var c := ChargeSendPower(b);
    if c.core.shutCnt > ARMED {
      ShutTickKeeps(c);
    }
  }

  lemma ChargeTickKeeps(b: Box, shorted: bool)
    requires Base(b) && b.core.mode == Charge && b.core.wait == NotWaiting
    ensures Base(ChargeTick(b, shorted))
  {
    hide Base;
    ChargeLidKeeps(b, shorted);
    if ChargeLid(b, shorted).core.wait == NotWaiting {
      ChargeRestKeeps(ChargeLid(b, shorted));
    }
  }

  predicate ModeEvent(e: Event) {
    e == LidOpened || e == EnterLowPower || e == NeedShutdown || e == UsbIn || e == UsbOut
  }

  /** Mode, hook, waiting and lid are the same. */
  predicate SameStanding(b: Box, c: Box) {
    c.core.mode == b.core.mode && c.core.hook == b.core.hook && c.core.wait == b.core.wait && c.sense.lidOpen == b.sense.lidOpen
  }

  lemma TimerKeeps(b: Box)
    requires Base(b) && b.core.mode == Charge
    ensures Base(SetTimer(b, false)) && SameStanding(b, SetTimer(b, false))
    ensures Base(AutoShutdownCheck(b)) && SameStanding(b, AutoShutdownCheck(b))
  {
    hide Count;
  }

  lemma ChargeModeEventKeeps(b: Box, e: Event, shorted: bool)
    requires Base(b) && b.core.mode == Charge && b.core.wait == NotWaiting && ModeEvent(e)
    ensures Base(ChargeEvent(b, e, shorted))
  {
    TimerKeeps(b);
    hide Base, SetMode, SetTimer, AutoShutdownCheck;
    match e
    case UsbIn =>
      if b.sense.lidOpen {
        SetModeKeeps(SetTimer(b, false), Comm);
      }
    case UsbOut =>
      if b.sense.lidOpen {
        SetModeKeeps(AutoShutdownCheck(b), Comm);
      }
    case LidOpened => SetModeKeeps(b, Comm);
    case EnterLowPower => SetModeKeeps(b, LowPower);
    case NeedShutdown => SetModeKeeps(b, LowPower);
  }

  lemma HalfSecondKeeps(b: Box)
    requires Base(b) && b.core.mode == Charge
    ensures Base(HalfSecond(b))
  {
    hide Count;
  }

  lemma EndChargeKeeps(b: Box)
    requires Base(b) && b.core.mode == Charge && b.core.wait == NotWaiting
    ensures Base(EndCharge(b)) && EndCharge(b).core.mode == Charge
    ensures Base(BeginCharge(b))
  {
    assert Count([], CloseLid) == 0 && Count([], Shutdown) == 0;
    hide Count;
  }

  lemma ChargeOtherEventKeeps(b: Box, e: Event, shorted: bool)
    requires Base(b) && b.core.mode == Charge && b.core.wait == NotWaiting && !ModeEvent(e) && e != Ms200
    ensures Base(ChargeEvent(b, e, shorted))
  {
    match e
    case Ms500 => HalfSecondKeeps(b);
    case EarFull =>
      EndChargeKeeps(b);
      TimerKeeps(EndCharge(b));
    case ExitCurrent => EndChargeKeeps(b);
    case _ =>
      TimerKeeps(b);
      hide ChargeTick, SetMode, HalfSecond, EndCharge, BeginCharge, AutoShutdownCheck, Count;
  }

  lemma ChargeEventKeeps(b: Box, e: Event, shorted: bool)
    requires Base(b) && b.core.mode == Charge && b.core.wait == NotWaiting
    ensures Base(ChargeEvent(b, e, shorted))
  {
    hide Base, ChargeTick, SetMode, HalfSecond, AutoShutdownCheck;
    if e == Ms200 {
      ChargeTickKeeps(b, shorted);
    } else if ModeEvent(e) {
      ChargeModeEventKeeps(b, e, shorted);
    } else {
      ChargeOtherEventKeeps(b, e, shorted);
    }
  }

  lemma CommHalfSecondKeeps(b: Box)
    requires Base(b) && b.core.mode == Comm && b.core.wait == NotWaiting
    ensures Base(AutoExit(PairConnecting(b)))
  {
    hide SetMode, Count;
    SendKeeps(b, Pair);
    var c := PairConnecting(b);
    SetModeKeeps(SetAutoExit(c, U8(c.misc.autoExit + 1)), if c.sense.lowPower then LowPower else Charge);
  }

  lemma CommEventKeeps(b: Box, e: Event, scanOk: bool)
    requires Base(b) && b.core.mode == Comm && b.core.wait == NotWaiting
    ensures Base(CommEvent(b, e, scanOk))
  {
    hide SetMode, Count, AutoExit, PairConnecting;
    match e
    case Ms200 => SendKeeps(b, PowerOpen);
    case Ms500 => CommHalfSecondKeeps(b);
    case UsbIn => SendKeeps(b, PowerOpen);
    case UsbOut => SendKeeps(b, PowerOpen);
    case LidClosed => SetModeKeeps(b, if b.sense.lowPower then LowPower else Charge);
    case NeedShutdown => SetModeKeeps(b, LowPower);
    case _ =>
  }

  lemma LowPowerTickKeeps(b: Box)
    requires Base(b) && b.core.mode == LowPower
    ensures Base(LowPowerShut(LowPowerLid(b)))
  {
    if b.core.lidCnt > ARMED {
      LidTickKeeps(b);
    }
    var c := LowPowerLid(b);
    if c.core.shutCnt > ARMED {
      ShutTickKeeps(c);
    }
  }

  lemma LowPowerEventKeeps(b: Box, e: Event)
    requires Base(b) && b.core.mode == LowPower && b.core.wait == NotWaiting
    ensures Base(LowPowerEvent(b, e))
  {
    match e
    case Ms200 => LowPowerTickKeeps(b);
    case LidOpened => SetModeKeeps(b, Comm);
    case ExitLowPower => SetModeKeeps(b, if b.sense.lidOpen then Comm else Charge);
    case _ =>
  }

  lemma CommonEventKeeps(b: Box, e: Event, shorted: bool)
    requires Base(b) && b.core.wait == NotWaiting
    ensures var c := CommonEvent(b, e, shorted);
      Base(c) && c.core.mode == b.core.mode && c.core.hook == b.core.hook && c.sense.lidOpen == b.sense.lidOpen
  {
  }

  lemma KeyKeeps(b: Box, k: Key)
    requires Base(b) && b.core.wait == NotWaiting
    ensures Base(OnKey(b, k))
  {
    if b.core.mode == Charge && k == Click && b.sense.lidOpen {
      SetModeKeeps(b, Comm);
    }
  }

  /** The step does not pull the controller out of CHARGE while the hook is about to switch the output on. */
  predicate NoRace(b: Box, s: Step) {
    b.core.hook == HookSwitching ==> !LeavesCharge(b, s)
  }

  /** MAIN: every step of every task keeps what does not depend on the 5 V switch. */
  lemma StepKeepsBase(b: Box, s: Step)
    requires Base(b) && Enabled(b, s)
    ensures Base(Next(b, s))
  {
    match s
    case Handle(e, shorted, scanOk) =>
      CommonEventKeeps(b, e, shorted);
      var c := CommonEvent(b, e, shorted);
      if c.core.wait == NotWaiting {
        match c.core.mode {
          case Charge => ChargeEventKeeps(c, e, shorted);
          case Comm => CommEventKeeps(c, e, scanOk);
          case LowPower => LowPowerEventKeeps(c, e);
        }
      }
    case Press(k) => KeyKeeps(b, k);
    case Resume => ResumeKeeps(b);
    case _ =>
  }

  lemma ResumeKeeps(b: Box)
    requires Base(b) && b.core.wait != NotWaiting
    ensures Base(OnResume(b))
  {
    match b.core.wait
    case NotWaiting =>
    case WaitLid => ChargeRestKeeps(ForceDone(OutputOn(StopWaiting(b))));
    case WaitTemp(_) =>
  }

  // ---------- the 5 V switch ----------

  lemma SetModePwr(b: Box, m: Mode)
    ensures SetMode(b, m).core.pwr ==> b.core.pwr && (m == b.core.mode || b.core.mode != Charge)
  {
  }

  lemma ChargeEventPwr(b: Box, e: Event, shorted: bool)
    requires b.core.mode == Charge
    ensures ChargeEvent(b, e, shorted).core.pwr ==> ChargeEvent(b, e, shorted).core.mode == Charge
  {
    ChargeEventMode(b, e, shorted);
    SetModePwr(b, Comm);
    SetModePwr(b, LowPower);
    SetModePwr(SetTimer(b, false), Comm);
    SetModePwr(AutoShutdownCheck(b), Comm);
    hide SetMode, ChargeTick, HalfSecond;
  }

  lemma CommEventPwr(b: Box, e: Event, scanOk: bool)
    requires b.core.mode == Comm && !b.core.pwr
    ensures !CommEvent(b, e, scanOk).core.pwr
  {
    hide SetMode;
    var c := PairConnecting(b);
    SetModePwr(SetAutoExit(c, U8(c.misc.autoExit + 1)), if b.sense.lowPower then LowPower else Charge);
    SetModePwr(b, if b.sense.lowPower then LowPower else Charge);
    SetModePwr(b, LowPower);
  }

  lemma LowPowerEventPwr(b: Box, e: Event)
    requires b.core.mode == LowPower && !b.core.pwr
    ensures !LowPowerEvent(b, e).core.pwr
  {
    hide SetMode;
    SetModePwr(b, Comm);
    SetModePwr(b, Charge);
  }

  lemma CommonEventPwr(b: Box, e: Event, shorted: bool)
    ensures CommonEvent(b, e, shorted).core.pwr ==> b.core.pwr || b.core.charge
  {
  }

  lemma EventPwr(b: Box, e: Event, shorted: bool, scanOk: bool)
    requires Base(b) && (b.core.pwr ==> b.core.mode == Charge)
    ensures OnEvent(b, e, shorted, scanOk).core.pwr ==> OnEvent(b, e, shorted, scanOk).core.mode == Charge
  {
    CommonEventPwr(b, e, shorted);
    CommonEventMode(b, e, shorted);
    var c := CommonEvent(b, e, shorted);
    hide CommonEvent, ChargeEvent, CommEvent, LowPowerEvent;
    match c.core.mode
    case Charge => ChargeEventPwr(c, e, shorted);
    case Comm => CommEventPwr(c, e, scanOk);
    case LowPower => LowPowerEventPwr(c, e);
  }

  lemma StepKeepsPwr(b: Box, s: Step)
    requires Inv(b) && Enabled(b, s) && NoRace(b, s)
    ensures PwrSafe(Next(b, s).core)
  {
    HookAfter(b, s);
    if b.core.hook == HookSwitching {
      LeavesChargeIff(b, s);
    }
    hide OnEvent, SetMode, Count;
    match s
    case Handle(e, shorted, scanOk) => EventPwr(b, e, shorted, scanOk);
    case Press(k) => SetModePwr(b, Comm);
    case _ =>
  }

  /** The hook gets to its switch only from CHARGE, and only its own steps move it. */
  lemma HookAfter(b: Box, s: Step)
    requires Base(b) && Enabled(b, s)
    ensures Next(b, s).core.hook == HookSwitching ==>
      b.core.hook == HookSwitching || (Next(b, s).core.charge && Next(b, s).core.mode == Charge)
    ensures b.core.hook == HookSwitching && s != TalkSwitch ==> Next(b, s).core.hook == HookSwitching
  {
    match s
    case Handle(e, shorted, scanOk) => EventHook(b, e, shorted, scanOk);
    case Press(k) => SetModeMode(b, Comm);
    case _ =>
  }

  lemma EventHook(b: Box, e: Event, shorted: bool, scanOk: bool)
    ensures OnEvent(b, e, shorted, scanOk).core.hook == b.core.hook
  {
    CommonEventMode(b, e, shorted);
    var c := CommonEvent(b, e, shorted);
    hide CommonEvent, ChargeEvent, CommEvent, LowPowerEvent;
    match c.core.mode
    case Charge => ChargeEventMode(c, e, shorted);
    case Comm => CommHook(c, e, scanOk);
    case LowPower => LowPowerHook(c, e);
  }

  lemma CommHook(b: Box, e: Event, scanOk: bool)
    ensures CommEvent(b, e, scanOk).core.hook == b.core.hook
  {
    hide SetMode;
    var c := PairConnecting(b);
    SetModeMode(SetAutoExit(c, U8(c.misc.autoExit + 1)), if b.sense.lowPower then LowPower else Charge);
    SetModeMode(b, if b.sense.lowPower then LowPower else Charge);
    SetModeMode(b, LowPower);
  }

  lemma LowPowerHook(b: Box, e: Event)
    ensures LowPowerEvent(b, e).core.hook == b.core.hook
  {
    hide SetMode;
    SetModeMode(b, Comm);
    SetModeMode(b, Charge);
  }

  /** MAIN: every step of every task keeps the whole invariant, given no race with the hook. */
  lemma StepKeepsInv(b: Box, s: Step)
    requires Inv(b) && Enabled(b, s) && NoRace(b, s)
    ensures Inv(Next(b, s))
  {
    StepKeepsBase(b, s);
    StepKeepsPwr(b, s);
    hide Next, Base;
  }

  /** Power reaches the ears only in CHARGE mode, and `charge` is set only there and after both handshakes. */
  ghost predicate OutputsSafe(c: Core) {
    BoostSafe(c) && (c.pwr ==> c.mode == Charge)
  }

  /** With the hook about to switch, the outputs are safe afterwards exactly when the step did not leave CHARGE. */
  lemma RaceIff(b: Box, s: Step)
    requires Inv(b) && b.core.hook == HookSwitching && Enabled(b, s) && s != TalkSwitch
    ensures Next(b, s).core.hook == HookSwitching
    ensures OutputsSafe(HookSwitch(Next(b, s)).core) <==> !LeavesCharge(b, s)
  {
    LeavesChargeIff(b, s);
    HookAfter(b, s);
    StepKeepsBase(b, s);
    hide Next, Count;
  }

  // ---------- runs ----------

  /** A run of steps each of which can happen where it stands. */
  predicate CanRun(b: Box, run: seq<Step>)
    decreases |run|
  {
    run != [] ==> Enabled(b, run[0]) && CanRun(Next(b, run[0]), run[1..])
  }

  function After(b: Box, run: seq<Step>): Box
    decreases |run|
  {
    if run == [] then b else After(Next(b, run[0]), run[1..])
  }

  /** No step of the run leaves CHARGE while the hook is about to switch. */
  predicate RaceFree(b: Box, run: seq<Step>)
    decreases |run|
  {
    run != [] ==> NoRace(b, run[0]) && RaceFree(Next(b, run[0]), run[1..])
  }

  lemma {:induction false} RunKeepsBase(b: Box, run: seq<Step>)
    requires Base(b) && CanRun(b, run)
    ensures Base(After(b, run))
    decreases |run|
  {
    hide Base, Next, Enabled;
    if run != [] {
      StepKeepsBase(b, run[0]);
      RunKeepsBase(Next(b, run[0]), run[1..]);
    }
  }

  lemma {:induction false} RunKeepsInv(b: Box, run: seq<Step>)
    requires Inv(b) && CanRun(b, run) && RaceFree(b, run)
    ensures Inv(After(b, run))
    decreases |run|
  {
    hide Inv, Next, Enabled, NoRace;
    if run != [] {
      StepKeepsInv(b, run[0]);
      RunKeepsInv(Next(b, run[0]), run[1..]);
    }
  }

  /** MAIN: in every state reachable from power-on, races included, everything but the 5 V switch is safe. */
  lemma ReachableBase(lidOpen: bool, lowPower: bool, usb: bool, run: seq<Step>)
    requires CanRun(Init(lidOpen, lowPower, usb), run)
    ensures Base(After(Init(lidOpen, lowPower, usb), run))
  {
    InitInv(lidOpen, lowPower, usb);
    RunKeepsBase(Init(lidOpen, lowPower, usb), run);
  }

  /** MAIN: and by a race-free run the 5 V switch too. */
  lemma ReachableInv(lidOpen: bool, lowPower: bool, usb: bool, run: seq<Step>)
    requires CanRun(Init(lidOpen, lowPower, usb), run) && RaceFree(Init(lidOpen, lowPower, usb), run)
    ensures Inv(After(Init(lidOpen, lowPower, usb), run))
  {
    InitInv(lidOpen, lowPower, usb);
    RunKeepsInv(Init(lidOpen, lowPower, usb), run);
  }

  lemma OneMore(b: Box, s: Step, run: seq<Step>)
    requires Enabled(b, s) && CanRun(Next(b, s), run)
    ensures CanRun(b, [s] + run) && After(b, [s] + run) == After(Next(b, s), run)
  {
    hide Next, Enabled;
    assert ([s] + run)[1..] == run;
  }

  lemma {:induction false} RunsJoin(b: Box, run: seq<Step>, more: seq<Step>)
    requires CanRun(b, run) && CanRun(After(b, run), more)
    ensures CanRun(b, run + more) && After(b, run + more) == After(After(b, run), more)
    decreases |run|
  {
    hide Next, Enabled;
    if run == [] {
      assert run + more == more;
    } else {
      assert (run + more)[1..] == run[1..] + more;
      RunsJoin(Next(b, run[0]), run[1..], more);
    }
  }

  // ---------- the race happens ----------

  const TICK := Handle(Ms200, false, false)

  /** Six ticks after power-on with the lid closed, then a talk with the ears up to its switch. */
  const TO_SWITCH := [TICK, TICK, TICK, TICK, TICK, TICK, TalkStart, TalkEnd(false)]

  lemma ClosingTick(b: Box)
    requires b.core.mode == Charge && b.core.wait == NotWaiting && b.core.lidCnt > ARMED && b.core.shutCnt == 0
    requires b.ears.forceCharge != 0
    ensures Enabled(b, TICK)
    ensures Next(b, TICK) == Send(b.(core := b.core.(lidCnt := b.core.lidCnt - 1)), CloseLid)
  {
  }

  lemma StartTick(b: Box)
    requires b.core.mode == Charge && b.core.wait == NotWaiting && b.core.lidCnt == ARMED && b.core.shutCnt == 0
    requires b.core.hook == HookIdle && !b.sense.currentLimit && !b.sense.tempLimit
    requires b.ears.forceCharge != 0 && !BothOnline(b)
    ensures Enabled(b, TICK)
    ensures var c := Next(b, TICK);
      && c.core == b.core.(lidCnt := 0, charge := true, boost := true, pwr := true)
      && c.sense == b.sense && c.ears == b.ears
  {
  }

  lemma {:induction false} ClosingTicks(b: Box, n: nat)
    requires b.core.mode == Charge && b.core.wait == NotWaiting && b.core.lidCnt == ARMED + n && b.core.shutCnt == 0
    requires b.ears.forceCharge != 0
    ensures var run := seq(n, _ => TICK);
      && CanRun(b, run)
      && After(b, run).core == b.core.(lidCnt := ARMED) && After(b, run).sense == b.sense && After(b, run).ears == b.ears
    decreases n
  {
    var run := seq(n, _ => TICK);
    if n > 0 {
      ClosingTick(b);
      ClosingTicks(Next(b, TICK), n - 1);
      hide Next, Enabled;
      OneMore(b, TICK, seq(n - 1, _ => TICK));
      assert run == [TICK] + seq(n - 1, _ => TICK);
    }
  }

  /** The hook about to switch, in CHARGE with the output on, is reached from power-on. */
  lemma SwitchReached(usb: bool)
    ensures var c := Init(false, false, usb);
      && CanRun(c, TO_SWITCH)
      && After(c, TO_SWITCH).core ==
           Core(Charge, true, 0, 0, 0, true, false, false, HookSwitching, NotWaiting)
      && !After(c, TO_SWITCH).sense.lidOpen && !After(c, TO_SWITCH).sense.currentLimit
  {
    var c := Init(false, false, usb);
    ClosingTicks(c, 5);
    var five := seq(5, _ => TICK);
    var d := After(c, five);
    StartTick(d);
    var e := Next(d, TICK);
    var f := Next(e, TalkStart);
    assert Enabled(e, TalkStart) && Enabled(f, TalkEnd(false));
    var g := Next(f, TalkEnd(false));
    assert g.core == Core(Charge, true, 0, 0, 0, true, false, false, HookSwitching, NotWaiting);
    hide Next, Enabled;
    OneMore(f, TalkEnd(false), []);
    OneMore(e, TalkStart, [TalkEnd(false)] + []);
    OneMore(d, TICK, [TalkStart] + ([TalkEnd(false)] + []));
    RunsJoin(c, five, [TICK] + ([TalkStart] + ([TalkEnd(false)] + [])));
    assert five + ([TICK] + ([TalkStart] + ([TalkEnd(false)] + []))) == TO_SWITCH;
  }

  /** MAIN: from power-on, lid opened between test and switch: the 5 V switch ends up on in COMM. */
  lemma RaceHappens(usb: bool)
    ensures var c := Init(false, false, usb);
      var run := TO_SWITCH + [Handle(LidOpened, false, false), TalkSwitch];
      CanRun(c, run) && After(c, run).core.pwr && After(c, run).core.mode == Comm
  {
    var c := Init(false, false, usb);
    SwitchReached(usb);
    var d := After(c, TO_SWITCH);
    var e := Next(d, Handle(LidOpened, false, false));
    assert Enabled(d, Handle(LidOpened, false, false)) && Enabled(e, TalkSwitch) && e.core.mode == Comm;
    var f := Next(e, TalkSwitch);
    assert f.core.pwr && f.core.mode == Comm;
    hide Next, Enabled;
    OneMore(e, TalkSwitch, []);
    OneMore(d, Handle(LidOpened, false, false), [TalkSwitch] + []);
    assert [Handle(LidOpened, false, false)] + ([TalkSwitch] + []) == [Handle(LidOpened, false, false), TalkSwitch];
    RunsJoin(c, TO_SWITCH, [Handle(LidOpened, false, false), TalkSwitch]);
  }
}
