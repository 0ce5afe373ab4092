/** The charging case read the other way round: for each of its variables, what every step makes of it. */
module ChargeBoxFields {
  import opened ChargeBox
  import ChargeBoxHandshake
  import opened ChargeBoxLedger
  import opened ChargeBoxOutputs
  import opened ChargeBoxSafety

  // ---------- mode, handshakes and timer ----------

  /** CHARGE is left as `LeavesCharge` says, COMM for a closed lid, a minute without activity or an empty battery, LOWPOWER for a lid or a charge. */
  function ModeAfter(b: Box, s: Step): Mode {
    var closed := if b.sense.lowPower then LowPower else Charge;
    match b.core.mode
    case Charge =>
      if !LeavesCharge(b, s) then Charge
      else if s.Handle? && (s.e == EnterLowPower || s.e == NeedShutdown) then LowPower else Comm
    case Comm =>
      if Handles(b, s, LidClosed) || (Handles(b, s, Ms500) && b.misc.autoExit > 120) then closed
      else if Handles(b, s, NeedShutdown) then LowPower
      else Comm
    case LowPower =>
      if Handles(b, s, LidOpened) then Comm
      else if Handles(b, s, ExitLowPower) then (if b.sense.lidOpen then Comm else Charge)
      else LowPower
  }

  predicate Changes(b: Box, s: Step) {
    ModeAfter(b, s) != b.core.mode
  }

  /** The tick that finds the lid handshake over. */
  predicate HandshakeEnds(b: Box, s: Step) {
    Handles(b, s, Ms200) && b.core.mode == Charge && b.core.lidCnt == 0x80
  }

  function ChargeAfter(b: Box, s: Step): bool {
    if b.core.charge then !ChargeBoxHandshake.ClearsCharge(b, s)
    else HandshakeEnds(b, s) && !b.sense.currentLimit && !s.shorted
  }

  function LidCntAfter(b: Box, s: Step): nat {
    if ChargeBoxHandshake.Arms(b, s) then 0x85
    else if Changes(b, s) || (b.core.mode == Charge && Handles(b, s, EarFull)) then 0
    else if Handles(b, s, Ms200) && b.core.mode != Comm then
      if b.core.lidCnt > 0x80 then b.core.lidCnt - 1 else 0
    else b.core.lidCnt
  }

  /** In LOWPOWER the tick that ends the lid handshake also sends the first SHUTDOWN. */
  function ShutCntAfter(b: Box, s: Step): nat {
    if b.core.mode == Charge && Handles(b, s, EarFull) then 0x85
    else if Changes(b, s) || (b.core.mode == Charge && Handles(b, s, ExitCurrent)) then 0
    else if Handles(b, s, Ms200) && b.core.mode != Comm then
      if b.core.mode == LowPower && b.core.lidCnt == 0x80 then 0x84
      else if b.core.shutCnt > 0x80 then b.core.shutCnt - 1 else 0
    else b.core.shutCnt
  }

  /** Ears full, and the battery too if there is a supply. */
  predicate NothingToCharge(b: Box) {
    b.ears.earFull && if b.sense.usb then b.sense.localFull else !b.sense.wireless
  }

  /** The auto-shutdown timer. */
  function TimerAfter(b: Box, s: Step): bool {
    if Changes(b, s) then ModeAfter(b, s) == LowPower && !b.sense.usb
    else if b.core.mode == Comm || !s.Handle? then b.core.shutdownTimer
    else if s.e == WirelessOn || s.e == UsbIn || (s.e == ExitCurrent && b.core.mode == Charge) then false
    else if b.core.mode == Charge then
      || b.core.shutdownTimer
      || ((s.e == WirelessOff || s.e == UsbOut || s.e == EarFull || s.e == LocalFull) && NothingToCharge(b))
      || (s.e == Ms500 && BoostFails(b) && b.ears.forceCharge == 0 && !b.sense.tempLimit)
    else b.core.shutdownTimer || s.e == WirelessOff || (s.e == UsbOut && !b.sense.wireless)
  }

  ghost predicate CoreFollows(b: Box, s: Step, c: Box) {
    && c.core.mode == ModeAfter(b, s)
    && c.core.charge == ChargeAfter(b, s)
    && c.core.lidCnt == LidCntAfter(b, s)
    && c.core.shutCnt == ShutCntAfter(b, s)
    && c.core.shutdownTimer == TimerAfter(b, s)
  }

  lemma SetModeCore(b: Box, m: Mode)
    requires m != b.core.mode
    ensures var c := SetMode(b, m);
      && c.core.mode == m
      && (b.core.mode == Charge || m == Charge ==> !c.core.charge) && (b.core.mode != Charge && m != Charge ==> c.core.charge == b.core.charge)
      && c.core.lidCnt == (if m == Charge || (m == LowPower && !b.ears.earFull) then 0x85
                           else if b.core.mode == Comm && m == Comm then b.core.lidCnt else 0)
      && c.core.shutCnt == 0
      && c.core.shutdownTimer == (m == LowPower && !b.sense.usb)
  {
  }

  lemma LidCore(b: Box, shorted: bool)
    requires Base(b) && b.core.mode == Charge && b.core.wait == NotWaiting
    ensures var c := ChargeLid(b, shorted);
      && c.core.mode == Charge && c.core.shutCnt == b.core.shutCnt && c.core.shutdownTimer == b.core.shutdownTimer
      && c.core.lidCnt == (if b.core.lidCnt > 0x80 then b.core.lidCnt - 1 else 0)
      && c.core.charge == (b.core.charge || (b.core.lidCnt == 0x80 && !b.sense.currentLimit && !shorted))
      && (c.core.wait != NotWaiting ==> b.core.lidCnt == 0x80)
  {
    hide Count;
  }

  lemma RestCore(b: Box)
    ensures var c := ChargeShut(ChargeSendPower(b));
      && c.core.mode == b.core.mode && c.core.charge == b.core.charge && c.core.lidCnt == b.core.lidCnt
      && c.core.shutdownTimer == b.core.shutdownTimer
      && c.core.shutCnt == if b.core.shutCnt > 0x80 then b.core.shutCnt - 1 else if b.core.shutCnt == 0x80 then 0 else b.core.shutCnt
  {
  }

  lemma TickCore(b: Box, shorted: bool, scanOk: bool)
    requires Base(b) && b.core.mode == Charge && b.core.wait == NotWaiting
    ensures CoreFollows(b, Handle(Ms200, shorted, scanOk), ChargeTick(b, shorted))
  {
    LidCore(b, shorted);
    RestCore(ChargeLid(b, shorted));
    hide ChargeLid, ChargeShut, ChargeSendPower, Count;
  }

  lemma HalfSecondCore(b: Box)
    ensures var c := HalfSecond(b);
      c.core == b.core.(shutdownTimer := b.core.shutdownTimer || (BoostFails(b) && b.ears.forceCharge == 0 && !b.sense.tempLimit))
  {
  }

  lemma SmallCore(b: Box)
    ensures AutoShutdownCheck(b).core == b.core.(shutdownTimer := b.core.shutdownTimer || NothingToCharge(b))
    ensures AutoShutdownCheck(b).sense == b.sense && AutoShutdownCheck(b).ears == b.ears
    ensures var c := EndCharge(b);
      c.core == b.core.(boost := false, pwr := false, lidCnt := 0, shutCnt := 0x85, charge := false)
      && c.sense == b.sense && c.ears == b.ears
    ensures BeginCharge(b).core == b.core.(shutCnt := 0, charge := false, shutdownTimer := false, lidCnt := 0x85)
  {
  }

  lemma ChargeCore(b: Box, e: Event, shorted: bool, scanOk: bool)
    requires Base(b) && b.core.mode == Charge && b.core.wait == NotWaiting
    ensures CoreFollows(b, Handle(e, shorted, scanOk), ChargeEvent(b, e, shorted))
  {
    if e == Ms200 {
      TickCore(b, shorted, scanOk);
    } else if ModeEvent(e) {
      ChargeLeaves(b, e, shorted, scanOk);
    } else {
      ChargeStays(b, e, shorted, scanOk);
    }
    hide ChargeEvent, CoreFollows;
  }

  lemma ChargeLeaves(b: Box, e: Event, shorted: bool, scanOk: bool)
    requires Base(b) && b.core.mode == Charge && b.core.wait == NotWaiting && ModeEvent(e)
    ensures CoreFollows(b, Handle(e, shorted, scanOk), ChargeEvent(b, e, shorted))
  {
    hide SetMode, AutoShutdownCheck, Count;
    SmallCore(b);
    match e
    case UsbIn => SetModeCore(SetTimer(b, false), Comm);
    case UsbOut => SetModeCore(AutoShutdownCheck(b), Comm);
    case LidOpened => SetModeCore(b, Comm);
    case EnterLowPower => SetModeCore(b, LowPower);
    case NeedShutdown => SetModeCore(b, LowPower);
  }

  lemma ChargeStays(b: Box, e: Event, shorted: bool, scanOk: bool)
    requires Base(b) && b.core.mode == Charge && b.core.wait == NotWaiting && !ModeEvent(e) && e != Ms200
    ensures CoreFollows(b, Handle(e, shorted, scanOk), ChargeEvent(b, e, shorted))
  {
    var c := ChargeEvent(b, e, shorted);
    StaysIn(b, e, shorted);
    hide ChargeEvent;
    StaysAfter(b, e, shorted, scanOk, c);
  }

  lemma StaysIn(b: Box, e: Event, shorted: bool)
    requires b.core.mode == Charge && !ModeEvent(e) && e != Ms200
    ensures Stayed(b, e, ChargeEvent(b, e, shorted).core)
  {
    hide HalfSecond, AutoShutdownCheck, EndCharge, BeginCharge;
    SmallCore(b);
    HalfSecondCore(b);
    SmallCore(EndCharge(b));
  }

  /** What the events that stay in CHARGE do to the core. */
  predicate Stayed(b: Box, e: Event, c: Core) {
    && c.mode == Charge
    && c.charge == (b.core.charge && e != EarFull && e != ExitCurrent)
    && c.lidCnt == (if e == ExitCurrent then 0x85 else if e == EarFull then 0 else b.core.lidCnt)
    && c.shutCnt == (if e == EarFull then 0x85 else if e == ExitCurrent then 0 else b.core.shutCnt)
    && c.shutdownTimer == (e != WirelessOn && e != ExitCurrent && (b.core.shutdownTimer || StartsTimer(b, e)))
  }

  predicate StartsTimer(b: Box, e: Event) {
    || ((e == WirelessOff || e == EarFull || e == LocalFull) && NothingToCharge(b))
    || (e == Ms500 && BoostFails(b) && b.ears.forceCharge == 0 && !b.sense.tempLimit)
  }

  lemma StaysAfter(b: Box, e: Event, shorted: bool, scanOk: bool, c: Box)
    requires Base(b) && b.core.mode == Charge && b.core.wait == NotWaiting && !ModeEvent(e) && e != Ms200
    requires Stayed(b, e, c.core)
    ensures CoreFollows(b, Handle(e, shorted, scanOk), c)
  {
    hide Count;
  }

  lemma CommCore(b: Box, e: Event, shorted: bool, scanOk: bool)
    requires Base(b) && b.core.mode == Comm && b.core.wait == NotWaiting
    ensures CoreFollows(b, Handle(e, shorted, scanOk), CommEvent(b, e, scanOk))
  {
    var c := CommEvent(b, e, scanOk);
    CommIn(b, e, shorted, scanOk);
    hide CommEvent;
    CommAfter(b, e, shorted, scanOk, c);
  }

  /** COMM is left with the core the new mode starts with, or the core stays. */
  predicate Left(b: Box, m: Mode, c: Core) {
    && c.mode == m
    && if m == Comm then
         && c.charge == b.core.charge && c.lidCnt == b.core.lidCnt
         && c.shutCnt == b.core.shutCnt && c.shutdownTimer == b.core.shutdownTimer
       else
         && c.charge == (m == LowPower && b.core.charge) && c.shutCnt == 0
         && c.lidCnt == (if m == Charge || !b.ears.earFull then 0x85 else 0)
         && c.shutdownTimer == (m == LowPower && !b.sense.usb)
  }

  lemma CommStaysIn(b: Box, e: Event, scanOk: bool)
    requires b.core.mode == Comm && e != LidClosed && e != NeedShutdown && (e == Ms500 ==> b.misc.autoExit <= 120)
    ensures var c := CommEvent(b, e, scanOk).core; c == b.core.(pairStatus := c.pairStatus)
  {
    hide SetMode;
  }

  /** The box COMM is left with, and the mode for a closed lid. */
  lemma CommLeavesBy(b: Box, e: Event, scanOk: bool)
    requires b.core.mode == Comm && (e == LidClosed || e == NeedShutdown || (e == Ms500 && b.misc.autoExit > 120))
    ensures var c := if e == Ms500 then SetAutoExit(PairConnecting(b), CInt.U8(PairConnecting(b).misc.autoExit + 1)) else b;
      && CommEvent(b, e, scanOk) == SetMode(c, if e == NeedShutdown || b.sense.lowPower then LowPower else Charge)
      && c.core.mode == Comm && c.core.charge == b.core.charge && c.ears == b.ears && c.sense == b.sense
  {
    hide SetMode, CInt.U8;
  }

  lemma CommIn(b: Box, e: Event, shorted: bool, scanOk: bool)
    requires b.core.mode == Comm && b.core.wait == NotWaiting
    ensures Left(b, ModeAfter(b, Handle(e, shorted, scanOk)), CommEvent(b, e, scanOk).core)
  {
    hide SetMode, CommEvent, PairConnecting, SetAutoExit, CInt.U8;
    if e == LidClosed || e == NeedShutdown || (e == Ms500 && b.misc.autoExit > 120) {
      var c := if e == Ms500 then SetAutoExit(PairConnecting(b), CInt.U8(PairConnecting(b).misc.autoExit + 1)) else b;
      CommLeavesBy(b, e, scanOk);
      SetModeCore(c, if e == NeedShutdown || b.sense.lowPower then LowPower else Charge);
    } else {
      CommStaysIn(b, e, scanOk);
    }
  }

  lemma CommAfter(b: Box, e: Event, shorted: bool, scanOk: bool, c: Box)
    requires Base(b) && b.core.mode == Comm && b.core.wait == NotWaiting
    requires Left(b, ModeAfter(b, Handle(e, shorted, scanOk)), c.core)
    ensures CoreFollows(b, Handle(e, shorted, scanOk), c)
  {
    hide Count;
  }

  lemma LowPowerCore(b: Box, e: Event, shorted: bool, scanOk: bool)
    requires Base(b) && b.core.mode == LowPower && b.core.wait == NotWaiting
    ensures CoreFollows(b, Handle(e, shorted, scanOk), LowPowerEvent(b, e))
  {
    hide SetMode, Count;
    SetModeCore(b, Comm);
    SetModeCore(b, Charge);
  }

  lemma RestoreLeaves(b: Box, shorted: bool)
    ensures var c := TempRestore(b, shorted);
      && c.core == b.core.(boost := c.core.boost, pwr := c.core.pwr)
      && c.sense == b.sense.(currentLimit := b.sense.currentLimit || shorted)
      && c.misc == b.misc.(ports := c.misc.ports, tempTimer := false)
      && c.ears == if b.sense.currentLimit || shorted then b.ears else b.ears.(forceCharge := 0, earFull := true)
  {
  }

  lemma CommonTemp(b: Box, shorted: bool)
    requires b.core.wait == NotWaiting
    ensures var c := CommonEvent(b, ExitTemp, shorted);
      && c.core == b.core.(boost := c.core.boost, pwr := c.core.pwr, wait := c.core.wait)
      && c.sense == b.sense.(currentLimit := c.sense.currentLimit)
      && c.misc == b.misc.(ports := c.misc.ports, tempTimer := c.misc.tempTimer)
  {
    var c := CommonEvent(b, ExitTemp, shorted);
    if b.core.charge && b.core.hook == HookIdle {
      assert c == TempRestore(b, shorted);
      hide *;
      RestoreLeaves(b, shorted);
    } else if b.core.charge {
      assert c == b.(core := b.core.(wait := WaitTemp(shorted)));
      hide *;
    } else {
      assert c == b;
      hide *;
    }
  }

  lemma CommonHeat(b: Box, shorted: bool)
    ensures var c := CommonEvent(b, EnterTemp, shorted);
      && c.core == b.core.(pwr := c.core.pwr) && c.sense == b.sense && c.ears == b.ears
      && c.misc == b.misc.(ports := c.misc.ports, tempTimer := c.misc.tempTimer)
  {
  }

  lemma CommonUsb(b: Box, shorted: bool)
    ensures var c := CommonEvent(b, UsbIn, shorted);
      && c.core == b.core && c.misc == b.misc && c.ears == b.ears
      && c.sense == b.sense.(currentLimit := c.sense.currentLimit)
  {
  }

  lemma CommonNone(b: Box, e: Event, shorted: bool)
    requires e != EnterTemp && e != ExitTemp && e != UsbIn
    ensures CommonEvent(b, e, shorted) == b
  {
  }

  lemma CommonOther(b: Box, e: Event, shorted: bool)
    requires b.core.wait == NotWaiting && e != ExitTemp
    ensures var c := CommonEvent(b, e, shorted);
      && c.core == b.core.(pwr := c.core.pwr)
      && c.sense == b.sense.(currentLimit := c.sense.currentLimit)
      && c.misc == b.misc.(ports := c.misc.ports, tempTimer := c.misc.tempTimer)
      && c.ears == b.ears && (e != UsbIn ==> c.sense == b.sense)
  {
    hide *;
    if e == EnterTemp {
      CommonHeat(b, shorted);
    } else if e == UsbIn {
      CommonUsb(b, shorted);
    } else {
      CommonNone(b, e, shorted);
    }
  }

  /** What common handling leaves alone. */
  lemma CommonLeaves(b: Box, e: Event, shorted: bool)
    requires b.core.wait == NotWaiting
    ensures var c := CommonEvent(b, e, shorted);
      && c.core == b.core.(boost := c.core.boost, pwr := c.core.pwr, wait := c.core.wait)
      && c.sense == b.sense.(currentLimit := c.sense.currentLimit)
      && c.misc == b.misc.(ports := c.misc.ports, tempTimer := c.misc.tempTimer)
      && (e != ExitTemp ==> c.core.wait == NotWaiting && c.ears == b.ears)
      && (e != ExitTemp && e != UsbIn ==> c.sense == b.sense)
  {
    hide CommonEvent;
    if e == ExitTemp {
      CommonTemp(b, shorted);
    } else {
      CommonOther(b, e, shorted);
    }
  }

  /** What decides about mode, counters and timer. */
  predicate SameDecisions(b: Box, c: Box, e: Event) {
    && c.core == b.core.(boost := c.core.boost, pwr := c.core.pwr) && c.misc.autoExit == b.misc.autoExit && c.misc.ldoFail == b.misc.ldoFail
    && c.sense == b.sense.(currentLimit := c.sense.currentLimit)
    && (e != ExitTemp ==> c.ears == b.ears && (e != UsbIn ==> c.sense == b.sense))
  }

  lemma SameCounts(b: Box, c: Box, s: Step)
    requires s.Handle? && SameDecisions(b, c, s.e)
    ensures ModeAfter(c, s) == ModeAfter(b, s) && ChargeAfter(c, s) == ChargeAfter(b, s)
    ensures ShutCntAfter(c, s) == ShutCntAfter(b, s)
  {
  }

  lemma SameLid(b: Box, c: Box, s: Step)
    requires s.Handle? && SameDecisions(b, c, s.e)
    ensures LidCntAfter(c, s) == LidCntAfter(b, s) && TimerAfter(c, s) == TimerAfter(b, s)
  {
    SameCounts(b, c, s);
  }

  lemma SameCore(b: Box, e: Event, shorted: bool, scanOk: bool)
    requires b.core.wait == NotWaiting && CommonEvent(b, e, shorted).core.wait == NotWaiting
    ensures var c := CommonEvent(b, e, shorted);
      var s := Handle(e, shorted, scanOk);
      && ModeAfter(c, s) == ModeAfter(b, s) && ChargeAfter(c, s) == ChargeAfter(b, s)
      && LidCntAfter(c, s) == LidCntAfter(b, s) && ShutCntAfter(c, s) == ShutCntAfter(b, s) && TimerAfter(c, s) == TimerAfter(b, s)
  {
    var c := CommonEvent(b, e, shorted);
    CommonLeaves(b, e, shorted);
    hide CommonEvent, ModeAfter, ChargeAfter, LidCntAfter, ShutCntAfter, TimerAfter;
    assert SameDecisions(b, c, e);
    SameCounts(b, c, Handle(e, shorted, scanOk));
    SameLid(b, c, Handle(e, shorted, scanOk));
  }

  lemma EventCore(b: Box, e: Event, shorted: bool, scanOk: bool)
    requires Base(b) && b.core.wait == NotWaiting
    ensures CoreFollows(b, Handle(e, shorted, scanOk), OnEvent(b, e, shorted, scanOk))
  {
    var c := CommonEvent(b, e, shorted);
    CommonEventKeeps(b, e, shorted);
    CommonLeaves(b, e, shorted);
    hide CommonEvent, ChargeEvent, CommEvent, LowPowerEvent, Count;
    if c.core.wait == NotWaiting {
      SameCore(b, e, shorted, scanOk);
      hide ModeAfter, ChargeAfter, LidCntAfter, ShutCntAfter, TimerAfter, Base;
      match c.core.mode {
        case Charge => ChargeCore(c, e, shorted, scanOk);
        case Comm => CommCore(c, e, shorted, scanOk);
        case LowPower => LowPowerCore(c, e, shorted, scanOk);
      }
    } else {
      assert e == ExitTemp;
    }
  }

  lemma KeyCore(b: Box, k: Key)
    requires Base(b) && b.core.wait == NotWaiting
    ensures CoreFollows(b, Press(k), OnKey(b, k))
  {
    hide SetMode, Count;
    if b.core.mode != Comm {
      SetModeCore(b, Comm);
    }
  }

  lemma ResumeCore(b: Box)
    requires Base(b) && b.core.wait != NotWaiting
    ensures CoreFollows(b, Resume, OnResume(b))
  {
    hide ChargeShut, ChargeSendPower, TempRestore, Count;
    match b.core.wait
    case NotWaiting =>
    case WaitLid => RestCore(ForceDone(OutputOn(StopWaiting(b))));
    case WaitTemp(shorted) => RestoreLeaves(StopWaiting(b), shorted);
  }

  lemma OtherCore(b: Box, s: Step)
    requires Base(b) && Enabled(b, s) && !s.Handle? && !s.Press? && s != Resume
    ensures CoreFollows(b, s, Next(b, s))
  {
    OtherLeaves(b, s);
    hide Next, Base;
  }

  lemma OtherLeaves(b: Box, s: Step)
    requires !s.Handle? && !s.Press? && s != Resume
    ensures var c := Next(b, s).core;
      && c.mode == b.core.mode && c.charge == b.core.charge && c.lidCnt == b.core.lidCnt && c.shutCnt == b.core.shutCnt
      && c.shutdownTimer == b.core.shutdownTimer && c.pairStatus == b.core.pairStatus && c.wait == b.core.wait
  {
    DetectCore(b);
    hide OnFullDetect;
  }

  lemma DetectCore(b: Box)
    ensures OnFullDetect(b).core == b.core
  {
  }

  /** MAIN: mode, charging flag, handshake counters and auto-shutdown timer after any step of any task. */
  lemma StepCore(b: Box, s: Step)
    requires Base(b) && Enabled(b, s)
    ensures CoreFollows(b, s, Next(b, s))
  {
    match s
    case Handle(e, shorted, scanOk) => EventCore(b, e, shorted, scanOk);
      hide OnEvent, CoreFollows;
    case Press(k) => KeyCore(b, k);
      hide OnKey, CoreFollows;
    case Resume => ResumeCore(b);
      hide OnResume, CoreFollows;
    case _ => OtherCore(b, s);
      hide Next, CoreFollows;
  }

  /** Power-on: the mode by lid and battery, the handshake armed in CHARGE, and everything off. */
  lemma PowerOn(lidOpen: bool, lowPower: bool, usb: bool)
    ensures var b := Init(lidOpen, lowPower, usb);
      var m := if lidOpen then Comm else if lowPower then LowPower else Charge;
      && b.core == Core(m, false, if m == Charge then 0x85 else 0, 0, 0, false, false, m == LowPower && !usb, HookIdle, NotWaiting)
      && b.sense == Sensed(false, false, usb, lidOpen, false, false, false, lowPower)
      && b.ears == Ears(Ear(0, 0, 0), Ear(0, 0, 0), false, false, false, if m == Charge then 240 else 0)
      && b.misc == Misc(false, PortsClosed, false, false, 0, 0, 0, 0)
      && b.log.sent == [] && b.log.posted == if usb then [UsbIn] else []
  {
  }
}
