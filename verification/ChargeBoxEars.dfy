/** What every step makes of the ears: who is on line, who is full, and how long charging is forced. */
module ChargeBoxEars {
  import opened CInt
  import opened ChargeBox
  import opened ChargeBoxFields
  import opened ChargeBoxLedger
  import opened ChargeBoxOutputs
  import opened ChargeBoxSafety

  /** CHARGE is entered, or begun again after a short. */
  predicate Begins(b: Box, s: Step) {
    (Changes(b, s) && ModeAfter(b, s) == Charge) || (b.core.mode == Charge && Handles(b, s, ExitCurrent))
  }

  /** The ears are taken for full without being asked: a short that stays, no boost for ten seconds, or no short after heat. */
  predicate GivesUp(b: Box, s: Step) {
    || (b.core.mode == Charge && Handles(b, s, EnterCurrent))
    || (b.core.mode == Charge && Handles(b, s, Ms500) && BoostFails(b) && (b.ears.forceCharge != 0 || b.sense.tempLimit))
    || (HandshakeEnds(b, s) && b.sense.currentLimit)
    || (Handles(b, s, ExitTemp) && b.core.charge && b.core.hook == HookIdle && !b.sense.currentLimit && !s.shorted)
    || (s == Resume && b.core.wait.WaitTemp? && !b.sense.currentLimit && !b.core.wait.shorted)
  }

  /** The steps that look whether both ears are on line. */
  predicate LooksForEars(b: Box, s: Step) {
    || (b.core.mode == Charge && Handles(b, s, Ms500))
    || (HandshakeEnds(b, s) && !b.sense.currentLimit && !s.shorted && (b.sense.tempLimit || b.core.hook == HookIdle))
    || (s == Resume && b.core.wait == WaitLid)
  }

  /** Forced charging, in half seconds: 240 from the start, none once both ears are on line or the case gives up. */
  function ForceAfter(b: Box, s: Step): nat {
    if Begins(b, s) then 240
    else if GivesUp(b, s) || (LooksForEars(b, s) && BothOnline(b)) then 0
    else if b.core.mode == Charge && Handles(b, s, Ms500) && b.ears.forceCharge > 0 then b.ears.forceCharge - 1
    else b.ears.forceCharge
  }

  /** Whether the ears count as full. */
  function FullAfter(b: Box, s: Step): bool {
    if (Changes(b, s) && ModeAfter(b, s) == Comm) || Begins(b, s) then false
    else if GivesUp(b, s) then true
    else if s == FullDetect && b.core.mode == Charge then
      var l, r := NowFull(b.ears.left, b.ears.leftFull), NowFull(b.ears.right, b.ears.rightFull);
      if b.ears.forceCharge == 0 && b.ears.left.online == 0 && b.ears.right.online == 0 then true
      else if b.ears.earFull then (l || b.ears.left.online == 0) && (r || b.ears.right.online == 0)
      else b.ears.forceCharge == 0 && AllFull(b)
    else b.ears.earFull
  }

  /** One ear after a step: what it was heard to say, and how often it has been seen full in a row. */
  function EarAfter(b: Box, s: Step, ear: Ear, full: bool, heard: bool, power: nat): Ear {
    match s
    case Exchange(_, _) =>
      if heard then ear.(online := 4)
      else Ear(if ear.online > 0 then ear.online - 1 else 0, if ear.online == 1 then 255 else ear.power, ear.fullCnt)
    case Powers(_, _) => ear.(power := power)
    case FullDetect =>
      if b.core.mode != Charge then ear
      else ear.(fullCnt := if ear.online != 0 && ear.power % 128 == 100 && !full then Counted(ear) else 0)
    case _ => ear
  }

  function EarFullAfter(b: Box, s: Step, ear: Ear, full: bool): bool {
    if (Changes(b, s) && ModeAfter(b, s) == Comm) || Begins(b, s) then false
    else if s == FullDetect && b.core.mode == Charge then NowFull(ear, full)
    else full
  }

  ghost predicate EarsFollow(b: Box, s: Step, c: Ears) {
    && c.forceCharge == ForceAfter(b, s) && c.earFull == FullAfter(b, s)
    && c.leftFull == EarFullAfter(b, s, b.ears.left, b.ears.leftFull)
    && c.rightFull == EarFullAfter(b, s, b.ears.right, b.ears.rightFull)
    && c.left == EarAfter(b, s, b.ears.left, b.ears.leftFull, s.Exchange? && s.heardL, if s.Powers? then s.powerL else 0)
    && c.right == EarAfter(b, s, b.ears.right, b.ears.rightFull, s.Exchange? && s.heardR, if s.Powers? then s.powerR else 0)
  }

  lemma SetModeEars(b: Box, m: Mode)
    requires m != b.core.mode
    ensures SetMode(b, m).ears ==
      if m == Comm then b.ears.(leftFull := false, rightFull := false, earFull := false)
      else if m == Charge then b.ears.(leftFull := false, rightFull := false, earFull := false, forceCharge := 240)
      else b.ears
  {
  }

  lemma ForceDoneEars(b: Box)
    ensures ForceDone(b).ears == if BothOnline(b) then b.ears.(forceCharge := 0) else b.ears
  {
  }

  lemma LidEars(b: Box, shorted: bool)
    requires b.core.wait == NotWaiting
    ensures ChargeLid(b, shorted).ears ==
      if b.core.lidCnt != 0x80 then b.ears
      else if b.sense.currentLimit then b.ears.(forceCharge := 0, earFull := true)
      else if !shorted && (b.sense.tempLimit || b.core.hook == HookIdle) && BothOnline(b) then b.ears.(forceCharge := 0)
      else b.ears
  {
  }

  lemma RestEars(b: Box)
    ensures ChargeShut(ChargeSendPower(b)).ears == b.ears && AutoShutdownCheck(b).ears == b.ears && EndCharge(b).ears == b.ears
    ensures AutoShutdownCheck(b).sense == b.sense && AutoShutdownCheck(b).core.mode == b.core.mode
    ensures BeginCharge(b).ears == b.ears.(leftFull := false, rightFull := false, earFull := false, forceCharge := 240)
  {
  }

  lemma HalfSecondEars(b: Box)
    ensures var fails := BoostFails(b) && (b.ears.forceCharge != 0 || b.sense.tempLimit);
      HalfSecond(b).ears == b.ears.(
        earFull := b.ears.earFull || fails,
        forceCharge := if fails || BothOnline(b) || b.ears.forceCharge == 0 then 0 else b.ears.forceCharge - 1)
  {
  }

  /** The ears after a CHARGE event. */
  function ChargeEars(b: Box, e: Event, shorted: bool): Ears {
    var s := Handle(e, shorted, false);
    b.ears.(forceCharge := ForceAfter(b, s), earFull := FullAfter(b, s),
            leftFull := EarFullAfter(b, s, b.ears.left, b.ears.leftFull),
            rightFull := EarFullAfter(b, s, b.ears.right, b.ears.rightFull))
  }

  lemma TickEarsIs(b: Box, shorted: bool)
    requires b.core.mode == Charge && b.core.wait == NotWaiting
    ensures ChargeEars(b, Ms200, shorted) ==
      if b.core.lidCnt != 0x80 then b.ears
      else if b.sense.currentLimit then b.ears.(forceCharge := 0, earFull := true)
      else if !shorted && (b.sense.tempLimit || b.core.hook == HookIdle) && BothOnline(b) then b.ears.(forceCharge := 0)
      else b.ears
  {
    hide BoostFails, BothOnline;
  }

  lemma TickEars(b: Box, shorted: bool)
    requires b.core.mode == Charge && b.core.wait == NotWaiting
    ensures ChargeTick(b, shorted).ears == ChargeEars(b, Ms200, shorted)
  {
    LidEars(b, shorted);
    RestEars(ChargeLid(b, shorted));
    TickEarsIs(b, shorted);
    hide ChargeLid, ChargeShut, ChargeSendPower, ChargeEars, BothOnline;
  }

  lemma ChargeLeavesEars(b: Box, e: Event, shorted: bool)
    requires b.core.mode == Charge && b.core.wait == NotWaiting && ModeEvent(e)
    ensures ChargeEvent(b, e, shorted).ears == ChargeEars(b, e, shorted)
  {
    RestEars(b);
    hide SetMode, AutoShutdownCheck, ChargeShut, ChargeSendPower, EndCharge, BeginCharge;
    match e
    case UsbIn => SetModeEars(SetTimer(b, false), Comm);
    case UsbOut => SetModeEars(AutoShutdownCheck(b), Comm);
    case LidOpened => SetModeEars(b, Comm);
    case EnterLowPower => SetModeEars(b, LowPower);
    case NeedShutdown => SetModeEars(b, LowPower);
  }

  /** The ears after the events that stay in CHARGE. */
  function StayedEars(b: Box, e: Event): Ears {
    match e
    case Ms500 =>
      var fails := BoostFails(b) && (b.ears.forceCharge != 0 || b.sense.tempLimit);
      b.ears.(earFull := b.ears.earFull || fails,
              forceCharge := if fails || BothOnline(b) || b.ears.forceCharge == 0 then 0 else b.ears.forceCharge - 1)
    case EnterCurrent => b.ears.(forceCharge := 0, earFull := true)
    case ExitCurrent => b.ears.(leftFull := false, rightFull := false, earFull := false, forceCharge := 240)
    case _ => b.ears
  }

  lemma StayedIs(b: Box, e: Event, shorted: bool)
    requires b.core.mode == Charge && b.core.wait == NotWaiting && !ModeEvent(e) && e != Ms200 && e != ExitTemp
    ensures ChargeEars(b, e, shorted) == StayedEars(b, e)
  {
    hide BoostFails, BothOnline;
  }

  lemma StayingIs(b: Box, e: Event, shorted: bool)
    requires !ModeEvent(e) && e != Ms200 && e != Ms500
    ensures ChargeEvent(b, e, shorted) == match e
      case EarFull => AutoShutdownCheck(EndCharge(b))
      case LocalFull => AutoShutdownCheck(b)
      case WirelessOff => AutoShutdownCheck(b)
      case WirelessOn => SetTimer(b, false)
      case ExitCurrent => BeginCharge(b)
      case EnterCurrent => GoToSleep(b.(core := b.core.(pwr := false, boost := false)))
      case _ => b
  {
    hide AutoShutdownCheck, EndCharge, BeginCharge, GoToSleep, SetTimer;
  }

  lemma ShortEars(b: Box)
    ensures GoToSleep(b.(core := b.core.(pwr := false, boost := false))).ears == b.ears.(forceCharge := 0, earFull := true)
    ensures SetTimer(b, false).ears == b.ears
  {
  }

  lemma ChargeStaysEars(b: Box, e: Event, shorted: bool)
    requires b.core.mode == Charge && b.core.wait == NotWaiting && !ModeEvent(e) && e != Ms200 && e != ExitTemp
    ensures ChargeEvent(b, e, shorted).ears == ChargeEars(b, e, shorted)
  {
    StayedIs(b, e, shorted);
    assert e == Ms500 ==> ChargeEvent(b, e, shorted) == HalfSecond(b);
    hide HalfSecond, AutoShutdownCheck, ChargeShut, ChargeSendPower, EndCharge, BeginCharge, ChargeEars, BoostFails, BothOnline;
    hide ChargeEvent, GoToSleep, SetTimer;
    if e == Ms500 {
      HalfSecondEars(b);
    } else {
      StayingIs(b, e, shorted);
      RestEars(b);
      RestEars(EndCharge(b));
      ShortEars(b);
    }
  }

  lemma CommEars(b: Box, e: Event, shorted: bool, scanOk: bool)
    requires b.core.mode == Comm && b.core.wait == NotWaiting && e != ExitTemp
    ensures CommEvent(b, e, scanOk).ears == ChargeEars(b, e, shorted)
  {
    hide SetMode;
    var c := PairConnecting(b);
    SetModeEars(SetAutoExit(c, CInt.U8(c.misc.autoExit + 1)), if b.sense.lowPower then LowPower else Charge);
    SetModeEars(b, if b.sense.lowPower then LowPower else Charge);
    SetModeEars(b, LowPower);
  }

  lemma LowPowerEars(b: Box, e: Event, shorted: bool)
    requires b.core.mode == LowPower && b.core.wait == NotWaiting && e != ExitTemp
    ensures LowPowerEvent(b, e).ears == ChargeEars(b, e, shorted)
  {
    hide SetMode;
    SetModeEars(b, Comm);
    SetModeEars(b, Charge);
  }

  lemma SameEars(b: Box, e: Event, shorted: bool)
    requires b.core.wait == NotWaiting && e != ExitTemp
    ensures var c := CommonEvent(b, e, shorted);
      c.core.wait == NotWaiting && c.core.mode == b.core.mode && ChargeEars(c, e, shorted) == ChargeEars(b, e, shorted)
  {
    CommonLeaves(b, e, shorted);
    hide CommonEvent;
  }

  /** What the end of temperature protection does is all done in common handling. */
  lemma ExitTempIs(b: Box, shorted: bool, scanOk: bool)
    requires Base(b) && b.core.wait == NotWaiting
    ensures OnEvent(b, ExitTemp, shorted, scanOk).ears ==
      if b.core.charge && b.core.hook == HookIdle then TempRestore(b, shorted).ears else b.ears
  {
    hide TempRestore, Count;
  }

  lemma RestoreEars(b: Box, shorted: bool)
    requires b.core.wait == NotWaiting && b.core.charge && b.core.mode == Charge
    ensures ChargeEars(b, ExitTemp, shorted) ==
      if b.core.hook == HookIdle && !b.sense.currentLimit && !shorted then b.ears.(forceCharge := 0, earFull := true) else b.ears
  {
  }

  lemma NoRestoreEars(b: Box, shorted: bool)
    requires b.core.wait == NotWaiting && !b.core.charge
    ensures ChargeEars(b, ExitTemp, shorted) == b.ears
  {
  }

  lemma ExitTempEars(b: Box, shorted: bool, scanOk: bool)
    requires Base(b) && b.core.wait == NotWaiting
    ensures OnEvent(b, ExitTemp, shorted, scanOk).ears == ChargeEars(b, ExitTemp, shorted)
  {
    assert b.core.charge ==> b.core.mode == Charge;
    hide *;
    ExitTempIs(b, shorted, scanOk);
    RestoreLeaves(b, shorted);
    if b.core.charge {
      RestoreEars(b, shorted);
    } else {
      NoRestoreEars(b, shorted);
    }
  }

  lemma EventEars(b: Box, e: Event, shorted: bool, scanOk: bool)
    requires Base(b) && b.core.wait == NotWaiting
    ensures OnEvent(b, e, shorted, scanOk).ears == ChargeEars(b, e, shorted)
  {
    if e == ExitTemp {
      ExitTempEars(b, shorted, scanOk);
    } else {
      var c := CommonEvent(b, e, shorted);
      SameEars(b, e, shorted);
      hide CommonEvent, ChargeEvent, CommEvent, LowPowerEvent, ChargeEars, Base, ChargeTick;
      match c.core.mode {
        case Charge =>
          if e == Ms200 {
            TickEars(c, shorted);
            TickIs(c, shorted);
          } else if ModeEvent(e) {
            ChargeLeavesEars(c, e, shorted);
          } else {
            ChargeStaysEars(c, e, shorted);
          }
        case Comm => CommEars(c, e, shorted, scanOk);
        case LowPower => LowPowerEars(c, e, shorted);
      }
    }
  }

  lemma TickIs(b: Box, shorted: bool)
    ensures ChargeEvent(b, Ms200, shorted) == ChargeTick(b, shorted)
  {
  }

  lemma HandledEars(b: Box, e: Event, shorted: bool, scanOk: bool)
    requires b.core.wait == NotWaiting
    ensures EarsFollow(b, Handle(e, shorted, scanOk), ChargeEars(b, e, shorted))
  {
    hide BoostFails, BothOnline, NowFull, AllFull;
  }

  lemma KeyEars(b: Box, k: Key)
    requires b.core.wait == NotWaiting
    ensures EarsFollow(b, Press(k), OnKey(b, k).ears)
  {
    hide SetMode;
    if b.core.mode == Charge {
      SetModeEars(b, Comm);
    }
  }

  lemma ResumeEars(b: Box)
    requires b.core.wait != NotWaiting
    ensures EarsFollow(b, Resume, OnResume(b).ears)
  {
    hide ChargeShut, ChargeSendPower, TempRestore;
    match b.core.wait
    case NotWaiting =>
    case WaitLid => RestEars(ForceDone(OutputOn(StopWaiting(b))));
    case WaitTemp(shorted) => RestoreLeaves(StopWaiting(b), shorted);
  }

  lemma DetectEars(b: Box)
    ensures EarsFollow(b, FullDetect, OnFullDetect(b).ears)
  {
  }

  lemma ExchangeEars(b: Box, l: bool, r: bool)
    ensures EarsFollow(b, Exchange(l, r), OnExchange(b, l, r).ears)
  {
  }

  lemma OtherEars(b: Box, s: Step)
    requires !s.Handle? && !s.Press? && s != Resume && s != FullDetect && !s.Exchange?
    ensures EarsFollow(b, s, Next(b, s).ears)
  {
  }

  /** MAIN: the ears after any step of any task. */
  lemma StepEars(b: Box, s: Step)
    requires Base(b) && Enabled(b, s)
    ensures EarsFollow(b, s, Next(b, s).ears)
  {
    hide OnEvent, OnKey, OnResume, OnFullDetect, OnExchange, EarsFollow, ChargeEars, Base;
    match s
    case Handle(e, shorted, scanOk) => EventEars(b, e, shorted, scanOk); HandledEars(b, e, shorted, scanOk);
    case Press(k) => KeyEars(b, k);
    case Resume => ResumeEars(b);
    case FullDetect => DetectEars(b);
    case Exchange(l, r) => ExchangeEars(b, l, r);
    case _ => OtherEars(b, s);
  }
}
