/**
 The charging-case controller as a transition system: main-task event and key handlers,
 timer callbacks, the short-circuit interrupt and the communication thread's hooks all act
 on one state.  `sent`, `sinceLid`, `sinceShut` and `posted` record what left the controller.
 */
module ChargeBox {
  import opened CInt

  const ARMED := 0x80
  const CLOSE_LID_MAX := 5
  const SHUT_DOWN_MAX := 5
  const EAR_OFFLINE_MAX := 4
  const FORCE_CHARGE_TIMES := 240
  const FULL_DET_CNT := 6
  const FULL_DET_LEVEL := 100
  const LDO_NOT_SUCC_TIMES := 20
  const KEY_PAIR_CNT := 10
  const COMM_LIFE_MAX := 120

  datatype Mode = Comm | Charge | LowPower
  datatype Message = CloseLid | Shutdown | PowerOpen | PowerClose | Pair
  datatype Side = Left | Right
  datatype Ports = PortsOpen | PortsClosed | PortsShut

  datatype Event =
    | Ms200 | Ms500 | UsbIn | UsbOut | LidOpened | LidClosed
    | EarOnline(side: Side) | EarOffline(side: Side)
    | EnterLowPower | ExitLowPower | NeedShutdown | EarFull | LocalFull
    | EnterCurrent | ExitCurrent | EnterTemp | ExitTemp
    | WirelessOn | WirelessOff

  datatype Key = Click | Long | Hold | Up | OtherKey

  datatype Ear = Ear(online: nat, power: nat, fullCnt: nat)

  /** The communication thread: outside its hooks, talking, or about to switch the 5 V output back on. */
  datatype Hook = HookIdle | HookTalking | HookSwitching

  /** Where the main task waits for the power mutex, if it does. */
  datatype Wait = NotWaiting | WaitLid | WaitTemp(shorted: bool)

  /** What decides where power goes: mode, handshakes, outputs, and who is about to act. */
  datatype Core = Core(
    mode: Mode, charge: bool, lidCnt: nat, shutCnt: nat, pairStatus: nat,
    boost: bool, pwr: bool, shutdownTimer: bool, hook: Hook, wait: Wait)

  /** Levels other parts of the firmware detect. */
  datatype Sensed = Sensed(
    currentLimit: bool, tempLimit: bool, usb: bool, lidOpen: bool, ldo: bool, wireless: bool,
    localFull: bool, lowPower: bool)

  datatype Ears = Ears(left: Ear, right: Ear, leftFull: bool, rightFull: bool, earFull: bool, forceCharge: nat)

  datatype Misc = Misc(
    pairSucc: bool, ports: Ports, off: bool, tempTimer: bool,
    powerCheck: nat, ldoFail: nat, pairKey: nat, autoExit: nat)

  /** Messages to the ears (all, and since each handshake was armed) and events posted. */
  datatype Log = Log(sent: seq<Message>, sinceLid: seq<Message>, sinceShut: seq<Message>, posted: seq<Event>)

  datatype Box = Box(core: Core, sense: Sensed, ears: Ears, misc: Misc, log: Log)

  // ---------- small actions ----------

  function Send(b: Box, m: Message): Box {
    b.(log := b.log.(sent := b.log.sent + [m], sinceLid := b.log.sinceLid + [m], sinceShut := b.log.sinceShut + [m]))
  }

  function Post(b: Box, e: Event): Box {
    b.(log := b.log.(posted := b.log.posted + [e]))
  }

  function ArmLid(b: Box): Box {
    b.(core := b.core.(lidCnt := ARMED + CLOSE_LID_MAX), log := b.log.(sinceLid := []))
  }

  function ArmShut(b: Box): Box {
    b.(core := b.core.(shutCnt := ARMED + SHUT_DOWN_MAX), log := b.log.(sinceShut := []))
  }

  predicate BothOnline(b: Box) {
    b.ears.left.online != 0 && b.ears.right.online != 0
  }

  function SetPorts(b: Box, p: Ports): Box {
    b.(misc := b.misc.(ports := p))
  }

  function SetTimer(b: Box, on: bool): Box {
    b.(core := b.core.(shutdownTimer := on))
  }

  function OutputOn(b: Box): Box {
    SetPorts(b, PortsShut).(core := b.core.(boost := true, pwr := true))
  }

  function OutputOff(b: Box): Box {
    SetPorts(b, PortsOpen).(core := b.core.(boost := false, pwr := false))
  }

  function GoToSleep(b: Box): Box {
    Post(b.(ears := b.ears.(forceCharge := 0, earFull := true)), EarFull)
  }

  /** `chargebox_check_output_short`: a new short sets the limit and sends one message. */
  function CheckShort(b: Box, shorted: bool): Box {
    if !b.sense.currentLimit && shorted then Post(b.(sense := b.sense.(currentLimit := true)), EnterCurrent) else b
  }

  // ---------- mode changes ----------

  function Leave(b: Box): Box {
    match b.core.mode
    case Comm => b.(core := b.core.(shutdownTimer := true, pairStatus := 0))
    case Charge => SetPorts(b, PortsOpen).(core := b.core.(lidCnt := 0, shutCnt := 0, charge := false,
                                                           boost := false, pwr := false, shutdownTimer := true))
    case LowPower => b.(core := b.core.(shutCnt := 0, lidCnt := 0))
  }

  /** Start of the lid-close handshake in CHARGE mode. */
  function BeginCharge(b: Box): Box {
    ArmLid(b.(core := b.core.(shutCnt := 0, charge := false, shutdownTimer := false),
              misc := b.misc.(powerCheck := 0),
              ears := b.ears.(leftFull := false, rightFull := false, earFull := false, forceCharge := FORCE_CHARGE_TIMES)))
  }

  function Enter(b: Box, m: Mode): Box {
    match m
    case Comm =>
      b.(core := b.core.(mode := Comm, shutdownTimer := false, shutCnt := 0, pairStatus := 0),
         misc := b.misc.(pairSucc := false, pairKey := 0, autoExit := 0),
         ears := b.ears.(leftFull := false, rightFull := false, earFull := false))
    case Charge => BeginCharge(b.(core := b.core.(mode := Charge)))
    case LowPower =>
      var c := b.(core := b.core.(mode := LowPower, shutCnt := 0, lidCnt := 0, shutdownTimer := !b.sense.usb));
      if !b.ears.earFull then ArmLid(c) else c
  }

  function SetMode(b: Box, m: Mode): Box {
    if m == b.core.mode then b else Enter(Leave(b), m)
  }

  // ---------- CHARGE mode ----------

  function ForceDone(b: Box): Box {
    if BothOnline(b) then b.(ears := b.ears.(forceCharge := 0)) else b
  }

  /** The lid handshake is over: look for a short, then switch on, or sleep, or wait for the mutex. */
  function ChargeStart(b: Box, shorted: bool): Box {
    var c := CheckShort(b.(core := b.core.(lidCnt := 0), misc := b.misc.(powerCheck := 0)), shorted);
    if !c.sense.currentLimit then
      var d := c.(core := c.core.(charge := true));
      if d.sense.tempLimit then ForceDone(Post(d, EnterTemp))
      else if d.core.hook != HookIdle then d.(core := d.core.(wait := WaitLid))
      else ForceDone(OutputOn(d))
    else if b.sense.currentLimit then GoToSleep(c)
    else c
  }

  function ChargeLid(b: Box, shorted: bool): Box {
    if b.core.lidCnt < ARMED then b
    else if b.core.lidCnt > ARMED then Send(b.(core := b.core.(lidCnt := b.core.lidCnt - 1)), CloseLid)
    else ChargeStart(b, shorted)
  }

  function ChargeSendPower(b: Box): Box {
    if b.core.shutCnt != 0 || b.core.lidCnt != 0 || b.ears.earFull || b.ears.forceCharge != 0 then b
    else if b.misc.powerCheck + 1 > 25 then Send(b.(misc := b.misc.(powerCheck := 0)), PowerClose)
    else b.(misc := b.misc.(powerCheck := b.misc.powerCheck + 1))
  }

  function ShutTick(b: Box): Box
    requires b.core.shutCnt > 0
  {
    Send(b.(core := b.core.(shutCnt := b.core.shutCnt - 1)), Shutdown)
  }

  function ChargeShut(b: Box): Box {
    if b.core.shutCnt < ARMED then b
    else if b.core.shutCnt > ARMED then ShutTick(b)
    else SetPorts(b, PortsShut).(core := b.core.(shutCnt := 0))
  }

  function ChargeTick(b: Box, shorted: bool): Box {
    var c := ChargeLid(b, shorted);
    if c.core.wait != NotWaiting then c else ChargeShut(ChargeSendPower(c))
  }

  function AutoShutdownCheck(b: Box): Box {
    SetTimer(b, b.core.shutdownTimer ||
                if !b.sense.usb && !b.sense.wireless then b.ears.earFull
                else b.sense.usb && b.sense.localFull && b.ears.earFull)
  }

  function LdoCheck(b: Box): Box {
    if b.sense.usb || b.sense.wireless then b
    else if b.sense.ldo then b.(misc := b.misc.(ldoFail := 0))
    else if b.misc.ldoFail < LDO_NOT_SUCC_TIMES then
      var d := b.(misc := b.misc.(ldoFail := b.misc.ldoFail + 1));
      if d.misc.ldoFail < LDO_NOT_SUCC_TIMES then d
      else if d.ears.forceCharge != 0 || d.sense.tempLimit then GoToSleep(d)
      else SetTimer(d, true)
    else b
  }

  function HalfSecond(b: Box): Box {
    var c := LdoCheck(b);
    ForceDone(c.(ears := c.ears.(forceCharge := if c.ears.forceCharge > 0 then c.ears.forceCharge - 1 else 0)))
  }

  /** All ears are full (or charging must stop): outputs off, shutdown handshake. */
  function EndCharge(b: Box): Box {
    ArmShut(OutputOff(b).(core := b.core.(boost := false, pwr := false, lidCnt := 0, charge := false)))
  }

  function CommIfOpen(b: Box): Box {
    if b.sense.lidOpen then SetMode(b, Comm) else b
  }

  function ChargeEvent(b: Box, e: Event, shorted: bool): Box {
    match e
    case Ms200 => ChargeTick(b, shorted)
    case Ms500 => HalfSecond(b)
    case WirelessOn => SetTimer(b, false)
    case WirelessOff => AutoShutdownCheck(b)
    case UsbIn => CommIfOpen(SetTimer(b, false))
    case UsbOut => CommIfOpen(AutoShutdownCheck(b))
    case LidOpened => SetMode(b, Comm)
    case EnterLowPower => SetMode(b, LowPower)
    case NeedShutdown => SetMode(b, LowPower)
    case EarFull => AutoShutdownCheck(EndCharge(b))
    case LocalFull => AutoShutdownCheck(b)
    case EnterCurrent => GoToSleep(b.(core := b.core.(pwr := false, boost := false)))
    case ExitCurrent => BeginCharge(b)
    case _ => b
  }

  // ---------- COMM mode ----------

  function PairConnecting(b: Box): Box {
    if b.core.pairStatus != 2 then b
    else if b.misc.pairSucc then b.(core := b.core.(pairStatus := 0))
    else Send(b, Pair)
  }

  /** The mode for a closed lid. */
  function Closed(b: Box): Box {
    SetMode(b, if b.sense.lowPower then LowPower else Charge)
  }

  function SetAutoExit(b: Box, n: nat): Box {
    b.(misc := b.misc.(autoExit := n))
  }

  function AutoExit(b: Box): Box {
    var c := SetAutoExit(b, U8(b.misc.autoExit + 1));
    if b.misc.autoExit > COMM_LIFE_MAX then Closed(c) else c
  }

  function CommEvent(b: Box, e: Event, scanOk: bool): Box {
    match e
    case Ms200 => if scanOk then Send(b, PowerOpen) else b
    case Ms500 => AutoExit(PairConnecting(b))
    case UsbIn => SetAutoExit(Send(b, PowerOpen), 0)
    case UsbOut => SetAutoExit(Send(b, PowerOpen), 0)
    case LidClosed => Closed(b)
    case NeedShutdown => SetMode(b, LowPower)
    case EarOnline(_) => SetAutoExit(b, 0)
    case EarOffline(_) => SetAutoExit(b, 0)
    case _ => b
  }

  // ---------- LOWPOWER mode ----------

  function LowPowerLid(b: Box): Box {
    if b.core.lidCnt < ARMED then b
    else if b.core.lidCnt > ARMED then Send(b.(core := b.core.(lidCnt := b.core.lidCnt - 1)), CloseLid)
    else ArmShut(b.(core := b.core.(lidCnt := 0)))
  }

  function LowPowerShut(b: Box): Box {
    if b.core.shutCnt < ARMED then b
    else if b.core.shutCnt > ARMED then ShutTick(b)
    else SetPorts(b, PortsShut).(core := b.core.(shutCnt := 0, charge := false))
  }

  function LowPowerEvent(b: Box, e: Event): Box {
    match e
    case Ms200 => LowPowerShut(LowPowerLid(b))
    case WirelessOn => SetTimer(b, false)
    case WirelessOff => SetTimer(b, true)
    case UsbIn => SetTimer(b, false)
    case UsbOut => SetTimer(b, b.core.shutdownTimer || !b.sense.wireless)
    case LidOpened => SetMode(b, Comm)
    case NeedShutdown => if b.core.lidCnt == 0 && b.core.shutCnt != 0 then b.(misc := b.misc.(off := true)) else b
    case ExitLowPower => SetMode(b, if b.sense.lidOpen then Comm else Charge)
    case _ => b
  }

  // ---------- common handling ----------

  function SetTempTimer(b: Box, on: bool): Box {
    b.(misc := b.misc.(tempTimer := on))
  }

  function TempRestore(b: Box, shorted: bool): Box {
    var c := CheckShort(b, shorted);
    SetTempTimer(if c.sense.currentLimit then OutputOn(c) else GoToSleep(c), false)
  }

  function CommonEvent(b: Box, e: Event, shorted: bool): Box {
    match e
    case EnterTemp =>
      if b.core.charge then SetTempTimer(SetPorts(b, PortsOpen), true).(core := b.core.(pwr := false)) else b
    case ExitTemp =>
      if !b.core.charge then b
      else if b.core.hook != HookIdle then b.(core := b.core.(wait := WaitTemp(shorted)))
      else TempRestore(b, shorted)
    case UsbIn => if b.sense.currentLimit then Post(b.(sense := b.sense.(currentLimit := false)), ExitCurrent) else b
    case _ => b
  }

  /** `charge_box_ctrl_event_handler`. */
  function OnEvent(b: Box, e: Event, shorted: bool, scanOk: bool): Box {
    var c := CommonEvent(b, e, shorted);
    if c.core.wait != NotWaiting then c
    else match c.core.mode
      case Charge => ChargeEvent(c, e, shorted)
      case Comm => CommEvent(c, e, scanOk)
      case LowPower => LowPowerEvent(c, e)
  }

  function SetPair(b: Box, status: nat): Box {
    b.(core := b.core.(pairStatus := status))
  }

  function CommKey(b: Box, k: Key): Box {
    match k
    case Long => if b.core.pairStatus == 0 then SetPair(b, 1).(misc := b.misc.(pairKey := 0)) else b
    case Hold =>
      if b.core.pairStatus != 1 then b
      else
        var n := U8(b.misc.pairKey + 1);
        if n >= KEY_PAIR_CNT then SetPair(b, 2).(misc := b.misc.(pairKey := n, pairSucc := false))
        else b.(misc := b.misc.(pairKey := n))
    case Up => if b.core.pairStatus != 2 then SetPair(b, 0) else b
    case _ => b
  }

  /** `charge_box_key_event_handler`. */
  function OnKey(b: Box, k: Key): Box {
    match b.core.mode
    case Charge => if k == Click then CommIfOpen(b) else b
    case LowPower => b
    case Comm => CommKey(SetAutoExit(b, 0), k)
  }

  function StopWaiting(b: Box): Box {
    b.(core := b.core.(wait := NotWaiting))
  }

  /** The rest of a handler that waited for the mutex. */
  function OnResume(b: Box): Box {
    match b.core.wait
    case NotWaiting => b
    case WaitLid => ChargeShut(ChargeSendPower(ForceDone(OutputOn(StopWaiting(b)))))
    case WaitTemp(shorted) => TempRestore(StopWaiting(b), shorted)
  }

  // ---------- timers, interrupts and the communication thread ----------

  /** One ear's share of `app_chargebox_ear_full_det`. */
  function EarFullCount(ear: Ear, full: bool): (Ear, bool) {
    if ear.online == 0 then (ear.(fullCnt := 0), false)
    else if ear.power % 128 == FULL_DET_LEVEL && !full then
      (ear.(fullCnt := U8(ear.fullCnt + 1)), U8(ear.fullCnt + 1) >= FULL_DET_CNT)
    else (ear.(fullCnt := 0), full)
  }

  function OnFullDetect(b: Box): Box {
    if b.core.mode != Charge then b
    else
      var (l, lf) := EarFullCount(b.ears.left, b.ears.leftFull);
      var (r, rf) := EarFullCount(b.ears.right, b.ears.rightFull);
      var c := b.(ears := b.ears.(left := l, right := r, leftFull := lf, rightFull := rf));
      var d :=
        if !c.ears.earFull then
          if ((rf && lf) || (lf && r.online == 0) || (rf && l.online == 0)) && c.ears.forceCharge == 0
          then Post(c.(ears := c.ears.(earFull := true)), EarFull) else c
        else if (!lf && l.online != 0) || (!rf && r.online != 0) then c.(ears := c.ears.(earFull := false))
        else c;
      if l.online == 0 && r.online == 0 && d.ears.forceCharge == 0 then Post(d.(ears := d.ears.(earFull := true)), EarFull)
      else d
  }

  function OnTempTimeout(b: Box): Box {
    if b.sense.usb || b.sense.wireless then SetTempTimer(b, true)
    else SetTempTimer(b, false).(core := b.core.(boost := false))
  }

  function OnShortInterrupt(b: Box): Box {
    if b.sense.currentLimit then b
    else Post(b.(core := b.core.(boost := false, pwr := false), sense := b.sense.(currentLimit := true)), EnterCurrent)
  }

  function HookEnter(b: Box): Box {
    SetPorts(b, PortsOpen).(core := b.core.(hook := HookTalking, pwr := b.core.pwr && !b.core.charge))
  }

  /** `exit_hook` up to, but not including, switching the output on. */
  function HookDecide(b: Box, shorted: bool): Box {
    if b.core.charge && !b.sense.tempLimit then
      var c := SetPorts(CheckShort(b, shorted), PortsShut);
      c.(core := c.core.(hook := if c.sense.currentLimit then HookIdle else HookSwitching))
    else SetPorts(b, PortsClosed).(core := b.core.(hook := HookIdle))
  }

  function HookSwitch(b: Box): Box {
    b.(core := b.core.(pwr := true, hook := HookIdle))
  }

  /** One ear's share of `app_chargebox_api_check_online`. */
  function EarAnswer(ear: Ear, heard: bool): Ear {
    if heard then ear.(online := EAR_OFFLINE_MAX)
    else if ear.online == 0 then ear
    else if ear.online == 1 then ear.(online := 0, power := 0xff)
    else ear.(online := ear.online - 1)
  }

  function EarNews(ear: Ear, heard: bool, side: Side): seq<Event> {
    if heard && ear.online == 0 then [EarOnline(side)]
    else if !heard && ear.online == 1 then [EarOffline(side)]
    else []
  }

  function OnExchange(b: Box, heardL: bool, heardR: bool): Box {
    b.(ears := b.ears.(left := EarAnswer(b.ears.left, heardL), right := EarAnswer(b.ears.right, heardR)),
       log := b.log.(posted := b.log.posted + EarNews(b.ears.left, heardL, Left) + EarNews(b.ears.right, heardR, Right)))
  }

  datatype Step =
    | Handle(e: Event, shorted: bool, scanOk: bool)
    | Press(k: Key)
    | Resume
    | FullDetect
    | TempTimeout
    | ShortInterrupt
    | TalkStart
    | TalkEnd(shorted: bool)
    | TalkSwitch
    | Exchange(heardL: bool, heardR: bool)
    | Powers(powerL: nat, powerR: nat)
    | Paired
    | Sense(usb: bool, lidOpen: bool, ldo: bool, wireless: bool, localFull: bool, lowPower: bool, tempLimit: bool)

  /** The main task cannot run while it waits; the hooks follow one another. */
  predicate Enabled(b: Box, s: Step) {
    match s
    case Handle(_, _, _) => b.core.wait == NotWaiting
    case Press(_) => b.core.wait == NotWaiting
    case Resume => b.core.wait != NotWaiting && b.core.hook == HookIdle
    case TempTimeout => b.misc.tempTimer
    case TalkStart => b.core.hook == HookIdle
    case TalkEnd(_) => b.core.hook == HookTalking
    case TalkSwitch => b.core.hook == HookSwitching
    case _ => true
  }

  function Next(b: Box, s: Step): Box {
    match s
    case Handle(e, shorted, scanOk) => OnEvent(b, e, shorted, scanOk)
    case Press(k) => OnKey(b, k)
    case Resume => OnResume(b)
    case FullDetect => OnFullDetect(b)
    case TempTimeout => OnTempTimeout(b)
    case ShortInterrupt => OnShortInterrupt(b)
    case TalkStart => HookEnter(b)
    case TalkEnd(shorted) => HookDecide(b, shorted)
    case TalkSwitch => HookSwitch(b)
    case Exchange(l, r) => OnExchange(b, l, r)
    case Powers(l, r) => b.(ears := b.ears.(left := b.ears.left.(power := l), right := b.ears.right.(power := r)))
    case Paired => b.(misc := b.misc.(pairSucc := true))
    case Sense(usb, lidOpen, ldo, wireless, localFull, lowPower, tempLimit) =>
      b.(sense := Sensed(b.sense.currentLimit, tempLimit, usb, lidOpen, ldo, wireless, localFull, lowPower))
  }

  /** `charge_box_ctrl_init` with the outputs and timers in their power-on state. */
  function Init(lidOpen: bool, lowPower: bool, usb: bool): Box {
    var ear := Ear(0, 0, 0);
    var b := Box(Core(Charge, false, 0, 0, 0, false, false, false, HookIdle, NotWaiting),
                 Sensed(false, false, usb, lidOpen, false, false, false, lowPower),
                 Ears(ear, ear, false, false, false, 0),
                 Misc(false, PortsClosed, false, false, 0, 0, 0, 0),
                 Log([], [], [], []));
    var c :=
      if lidOpen then b.(core := b.core.(mode := Comm))
      else if lowPower then b.(core := b.core.(mode := LowPower, shutdownTimer := !usb))
      else BeginCharge(b);
    if usb then Post(c, UsbIn) else c
  }
}
