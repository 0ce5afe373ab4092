/** The pins the ears are talked to over, and that 5 V is put on the wire only with them shut. */
module ChargeBoxPorts {
  import opened ChargeBox
  import ChargeBoxHandshake
  import opened ChargeBoxOutputs
  import opened ChargeBoxSafety

  /** A 200 ms event that ends the shutdown handshake. */
  predicate ShutsDown(b: Box, s: Step) {
    Handles(b, s, Ms200) && b.core.mode != Comm && b.core.shutCnt == 0x80
  }

  /** Full ears, leaving CHARGE, temperature protection while charging, and the start of a talk open the pins. */
  predicate Opens(b: Box, s: Step) {
    || (b.core.mode == Charge && Handles(b, s, EarFull))
    || LeavesCharge(b, s)
    || (b.core.charge && Handles(b, s, EnterTemp))
    || s == TalkStart
  }

  function PortsAfter(b: Box, s: Step): Ports {
    if SwitchesOn(b, s) || ShutsDown(b, s) then PortsShut
    else if Opens(b, s) then PortsOpen
    else if s.TalkEnd? then (if b.core.charge && !b.sense.tempLimit then PortsShut else PortsClosed)
    else b.misc.ports
  }

  lemma SetModePorts(b: Box, m: Mode)
    ensures SetMode(b, m).misc.ports == if b.core.mode == Charge && m != Charge then PortsOpen else b.misc.ports
  {
  }

  lemma RestPorts(b: Box)
    ensures ChargeShut(ChargeSendPower(b)).misc.ports == if b.core.shutCnt == 0x80 then PortsShut else b.misc.ports
  {
  }

  lemma LidPorts(b: Box, shorted: bool)
    requires b.core.wait == NotWaiting
    ensures var c := ChargeLid(b, shorted);
      && c.core.shutCnt == b.core.shutCnt
      && (c.core.wait != NotWaiting ==> b.core.lidCnt == 0x80)
      && c.misc.ports ==
           if b.core.lidCnt == 0x80 && !b.sense.currentLimit && !shorted && !b.sense.tempLimit && b.core.hook == HookIdle
           then PortsShut else b.misc.ports
  {
  }

  lemma SmallPorts(b: Box)
    ensures HalfSecond(b).misc.ports == b.misc.ports && AutoShutdownCheck(b).misc.ports == b.misc.ports
    ensures EndCharge(b).misc.ports == PortsOpen && BeginCharge(b).misc.ports == b.misc.ports
    ensures AutoShutdownCheck(b).core.mode == b.core.mode && AutoShutdownCheck(b).sense == b.sense
  {
  }

  lemma TickPorts(b: Box, shorted: bool, scanOk: bool)
    requires Base(b) && b.core.mode == Charge && b.core.wait == NotWaiting
    ensures ChargeTick(b, shorted).misc.ports == PortsAfter(b, Handle(Ms200, shorted, scanOk))
  {
    assert b.core.lidCnt == 0 || b.core.shutCnt == 0;
    hide Base;
    LidPorts(b, shorted);
    RestPorts(ChargeLid(b, shorted));
    hide ChargeLid, ChargeShut, ChargeSendPower;
  }

  lemma OtherPorts(b: Box, e: Event, shorted: bool, scanOk: bool)
    requires b.core.mode == Charge && b.core.wait == NotWaiting && e != Ms200 && e != EnterTemp && e != ExitTemp
    ensures PortsAfter(b, Handle(e, shorted, scanOk)) == if e == EarFull || LeavesOn(b, e) then PortsOpen else b.misc.ports
  {
  }

  lemma ChargePorts(b: Box, e: Event, shorted: bool, scanOk: bool)
    requires Base(b) && b.core.mode == Charge && b.core.wait == NotWaiting && e != EnterTemp && e != ExitTemp
    ensures ChargeEvent(b, e, shorted).misc.ports == PortsAfter(b, Handle(e, shorted, scanOk))
  {
    if e == Ms200 {
      TickPorts(b, shorted, scanOk);
    } else {
      OtherPorts(b, e, shorted, scanOk);
      hide PortsAfter, Base, ChargeEvent;
      if ModeEvent(e) {
        LeavingPorts(b, e, shorted);
      } else {
        StayingPorts(b, e, shorted);
      }
    }
  }

  lemma LeavingPorts(b: Box, e: Event, shorted: bool)
    requires b.core.mode == Charge && ModeEvent(e)
    ensures ChargeEvent(b, e, shorted).misc.ports == if LeavesOn(b, e) then PortsOpen else b.misc.ports
  {
    hide ChargeTick, SetMode, HalfSecond, AutoShutdownCheck, EndCharge, BeginCharge;
    SmallPorts(b);
    match e
    case UsbIn => SetModePorts(SetTimer(b, false), Comm);
    case UsbOut => SetModePorts(AutoShutdownCheck(b), Comm);
    case LidOpened => SetModePorts(b, Comm);
    case EnterLowPower => SetModePorts(b, LowPower);
    case NeedShutdown => SetModePorts(b, LowPower);
  }

  lemma StayingPorts(b: Box, e: Event, shorted: bool)
    requires b.core.mode == Charge && !ModeEvent(e) && e != Ms200
    ensures ChargeEvent(b, e, shorted).misc.ports == if e == EarFull then PortsOpen else b.misc.ports
  {
    hide ChargeTick, SetMode, HalfSecond, AutoShutdownCheck, EndCharge, BeginCharge;
    SmallPorts(b);
    SmallPorts(EndCharge(b));
  }

  lemma CommPorts(b: Box, e: Event, scanOk: bool)
    requires b.core.mode == Comm
    ensures CommEvent(b, e, scanOk).misc.ports == b.misc.ports
  {
    hide SetMode;
    var c := PairConnecting(b);
    SetModePorts(SetAutoExit(c, CInt.U8(c.misc.autoExit + 1)), if b.sense.lowPower then LowPower else Charge);
    SetModePorts(b, if b.sense.lowPower then LowPower else Charge);
    SetModePorts(b, LowPower);
  }

  lemma LowPowerPorts(b: Box, e: Event)
    requires Base(b) && b.core.mode == LowPower
    ensures LowPowerEvent(b, e).misc.ports == if e == Ms200 && b.core.shutCnt == 0x80 then PortsShut else b.misc.ports
  {
    hide SetMode, Count;
    SetModePorts(b, Comm);
    SetModePorts(b, Charge);
  }

  lemma RestorePorts(b: Box, shorted: bool)
    ensures TempRestore(b, shorted).misc.ports == if b.sense.currentLimit || shorted then PortsShut else b.misc.ports
  {
  }

  lemma TempPorts(b: Box, e: Event, shorted: bool, scanOk: bool)
    requires Base(b) && b.core.wait == NotWaiting && (e == EnterTemp || e == ExitTemp)
    ensures OnEvent(b, e, shorted, scanOk).misc.ports == PortsAfter(b, Handle(e, shorted, scanOk))
  {
    RestorePorts(b, shorted);
    hide TempRestore, Count;
  }

  lemma EventPorts(b: Box, e: Event, shorted: bool, scanOk: bool)
    requires Base(b) && b.core.wait == NotWaiting
    ensures OnEvent(b, e, shorted, scanOk).misc.ports == PortsAfter(b, Handle(e, shorted, scanOk))
  {
    if e == EnterTemp || e == ExitTemp {
      TempPorts(b, e, shorted, scanOk);
    } else {
      var s := Handle(e, shorted, scanOk);
      var c := CommonEvent(b, e, shorted);
      CommonEventKeeps(b, e, shorted);
      SamePorts(b, e, shorted, scanOk);
      hide CommonEvent, ChargeEvent, CommEvent, LowPowerEvent, Base;
      match c.core.mode {
        case Charge => ChargePorts(c, e, shorted, scanOk);
        case Comm => CommPorts(c, e, scanOk);
        case LowPower => LowPowerPorts(c, e);
      }
    }
  }

  lemma SamePorts(b: Box, e: Event, shorted: bool, scanOk: bool)
    requires b.core.wait == NotWaiting && e != EnterTemp && e != ExitTemp
    ensures var c := CommonEvent(b, e, shorted);
      var s := Handle(e, shorted, scanOk);
      && c.core == b.core && c.misc == b.misc && PortsAfter(c, s) == PortsAfter(b, s)
  {
  }

  lemma ResumePorts(b: Box)
    requires b.core.wait != NotWaiting
    ensures OnResume(b).misc.ports == PortsAfter(b, Resume)
  {
    hide ChargeShut, ChargeSendPower, TempRestore;
    match b.core.wait
    case NotWaiting =>
    case WaitLid => RestPorts(ForceDone(OutputOn(StopWaiting(b))));
    case WaitTemp(shorted) => RestorePorts(StopWaiting(b), shorted);
  }

  /** MAIN: what every step of every task does to the pins. */
  lemma PortsIff(b: Box, s: Step)
    requires Base(b) && Enabled(b, s)
    ensures Next(b, s).misc.ports == PortsAfter(b, s)
  {
    hide OnEvent, OnResume, SetMode, Count;
    match s
    case Handle(e, shorted, scanOk) => EventPorts(b, e, shorted, scanOk);
    case Press(k) => SetModePorts(b, Comm);
    case Resume => ResumePorts(b);
    case _ =>
  }

  // ---------- 5 V only with the pins shut ----------

  /** 5 V is on, or about to be, only while charging and with the pins shut; during a talk it is off. */
  ghost predicate WireSafe(b: Box) {
    && (b.core.pwr || b.core.hook == HookSwitching ==> b.core.charge && b.misc.ports == PortsShut)
    && (b.core.hook == HookTalking ==> !b.core.pwr)
  }

  /** With the hook about to switch, a step that ends charging or opens the pins; and the end of a short with 5 V on. */
  predicate Endangers(b: Box, s: Step) {
    || (b.core.hook == HookSwitching && s != TalkSwitch
        && (ChargeBoxHandshake.ClearsCharge(b, s) || Handles(b, s, EnterTemp)))
    || (b.core.pwr && b.core.mode == Charge && Handles(b, s, ExitCurrent))
  }

  /** Where the hook is after a step. */
  lemma HookIs(b: Box, s: Step)
    requires Enabled(b, s)
    ensures Next(b, s).core.hook ==
      if s == TalkStart then HookTalking
      else if s == TalkSwitch then HookIdle
      else if s.TalkEnd? && b.core.charge && !b.sense.tempLimit && !b.sense.currentLimit && !s.shorted then HookSwitching
      else if s.TalkEnd? then HookIdle
      else b.core.hook
  {
    hide OnEvent, SetMode;
    match s
    case Handle(e, shorted, scanOk) => EventHook(b, e, shorted, scanOk);
    case Press(k) => SetModeMode(b, Comm);
    case _ =>
  }

  /** The steps that leave `charge` set or set it. */
  lemma ChargeIs(b: Box, s: Step)
    requires Base(b) && Enabled(b, s)
    ensures b.core.charge ==> (Next(b, s).core.charge <==> !ChargeBoxHandshake.ClearsCharge(b, s))
    ensures SwitchesOn(b, s) ==> Next(b, s).core.charge
  {
    if b.core.charge {
      ChargeBoxHandshake.ClearsChargeIff(b, s);
    } else if SwitchesOn(b, s) {
      assert ChargingStarts(b, s);
      StartCharges(b, s);
    }
    hide Next, ChargeBoxHandshake.ClearsCharge;
    if b.core.charge && SwitchesOn(b, s) {
      OnKeepsCharge(b, s);
    }
  }

  lemma StartCharges(b: Box, s: Step)
    requires Base(b) && ChargingStarts(b, s)
    ensures Next(b, s).core.charge
  {
    hide Count;
  }

  lemma OnKeepsCharge(b: Box, s: Step)
    requires Base(b) && SwitchesOn(b, s) && b.core.charge
    ensures !ChargeBoxHandshake.ClearsCharge(b, s)
  {
    hide Count;
  }

  /** MAIN: from power-on on, 5 V is on the wire only with the pins shut - exactly until a step that endangers it. */
  lemma WireSafeIff(b: Box, s: Step)
    requires Base(b) && WireSafe(b) && Enabled(b, s)
    ensures WireSafe(Next(b, s)) <==> !Endangers(b, s)
  {
    PwrIff(b, s);
    PortsIff(b, s);
    HookIs(b, s);
    ChargeIs(b, s);
    hide Next, Count;
  }

  /** No step of the run endangers the wire. */
  predicate Unendangered(b: Box, run: seq<Step>)
    decreases |run|
  {
    run != [] ==> !Endangers(b, run[0]) && Unendangered(Next(b, run[0]), run[1..])
  }

  lemma {:induction false} RunKeepsWire(b: Box, run: seq<Step>)
    requires Base(b) && WireSafe(b) && CanRun(b, run) && Unendangered(b, run)
    ensures WireSafe(After(b, run))
    decreases |run|
  {
    hide Base, WireSafe, Next, Enabled, Endangers;
    if run != [] {
      StepKeepsBase(b, run[0]);
      WireSafeIff(b, run[0]);
      RunKeepsWire(Next(b, run[0]), run[1..]);
    }
  }

  /** MAIN: so it holds in every state reached from power-on without such a step. */
  lemma ReachableWire(lidOpen: bool, lowPower: bool, usb: bool, run: seq<Step>)
    requires CanRun(Init(lidOpen, lowPower, usb), run) && Unendangered(Init(lidOpen, lowPower, usb), run)
    ensures WireSafe(After(Init(lidOpen, lowPower, usb), run))
  {
    InitInv(lidOpen, lowPower, usb);
    assert WireSafe(Init(lidOpen, lowPower, usb));
    hide Init;
    RunKeepsWire(Init(lidOpen, lowPower, usb), run);
  }
}
