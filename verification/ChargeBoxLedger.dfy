/** What every step of the charging case says: the messages it sends to the ears and the events it posts. */
module ChargeBoxLedger {
  import opened ChargeBox
  import opened ChargeBoxOutputs
  import opened ChargeBoxSafety

  /** The query for the ears' power: charging undisturbed, 26 ticks after the last one. */
  predicate QueryDue(b: Box) {
    b.core.lidCnt == 0 && b.core.shutCnt == 0 && !b.ears.earFull && b.ears.forceCharge == 0 && b.misc.powerCheck >= 25
  }

  /** Messages a 200 ms event sends in CHARGE and LOWPOWER. */
  function TickMessages(b: Box): seq<Message> {
    if b.core.mode == Charge then
      (if b.core.lidCnt > 0x80 then [CloseLid] else []) + (if QueryDue(b) then [PowerClose] else [])
      + if b.core.shutCnt > 0x80 then [Shutdown] else []
    else
      (if b.core.lidCnt > 0x80 then [CloseLid] else [])
      + if b.core.shutCnt > 0x80 || b.core.lidCnt == 0x80 then [Shutdown] else []
  }

  function MessagesOf(b: Box, s: Step): seq<Message> {
    match s
    case Handle(e, _, scanOk) =>
      if b.core.mode == Comm then
        if (e == Ms200 && scanOk) || e == UsbIn || e == UsbOut then [PowerOpen]
        else if e == Ms500 && b.core.pairStatus == 2 && !b.misc.pairSucc then [Pair]
        else []
      else if e == Ms200 then TickMessages(b)
      else []
    case Resume => if b.core.wait == WaitLid && QueryDue(ForceDone(b)) then [PowerClose] else []
    case _ => []
  }

  /** One ear went on or off line. */
  function OneEar(ear: Ear, heard: bool, side: Side): seq<Event> {
    if heard && ear.online == 0 then [EarOnline(side)] else if !heard && ear.online == 1 then [EarOffline(side)] else []
  }

  /** The end of temperature protection: a short that is new is told, no short means full ears. */
  function RestoreEvents(b: Box, shorted: bool): seq<Event> {
    if b.sense.currentLimit then [] else if shorted then [EnterCurrent] else [EarFull]
  }

  /** The end of the lid handshake: a short is told once, later ones count as full ears; heat is told again. */
  function StartEvents(b: Box, shorted: bool): seq<Event> {
    if b.sense.currentLimit then [EarFull] else if shorted then [EnterCurrent]
    else if b.sense.tempLimit then [EnterTemp] else []
  }

  /** The twentieth half second without external power in which the boost has not come up. */
  predicate BoostFails(b: Box) {
    !b.sense.usb && !b.sense.wireless && !b.sense.ldo && b.misc.ldoFail == 19
  }

  function Counted(ear: Ear): nat {
    CInt.U8(ear.fullCnt + 1)
  }

  /** An ear on line that has now been seen full six times, or was before. */
  predicate NowFull(ear: Ear, full: bool) {
    ear.online != 0 && (full || (ear.power % 128 == 100 && Counted(ear) >= 6))
  }

  /** Forced charging is over and every ear on line is full, one at least. */
  predicate AllFull(b: Box) {
    var l, r := NowFull(b.ears.left, b.ears.leftFull), NowFull(b.ears.right, b.ears.rightFull);
    (l || r) && (l || b.ears.left.online == 0) && (r || b.ears.right.online == 0)
  }

  function FullEvents(b: Box): seq<Event> {
    if b.core.mode != Charge || b.ears.forceCharge != 0 then []
    else
      (if !b.ears.earFull && AllFull(b) then [EarFull] else [])
      + if b.ears.left.online == 0 && b.ears.right.online == 0 then [EarFull] else []
  }

  function EventsOf(b: Box, s: Step): seq<Event> {
    match s
    case Handle(e, shorted, _) =>
      if e == UsbIn then (if b.sense.currentLimit then [ExitCurrent] else [])
      else if e == ExitTemp then (if b.core.charge && b.core.hook == HookIdle then RestoreEvents(b, shorted) else [])
      else if b.core.mode != Charge then []
      else if e == Ms200 then (if b.core.lidCnt == 0x80 then StartEvents(b, shorted) else [])
      else if e == Ms500 then (if BoostFails(b) && (b.ears.forceCharge != 0 || b.sense.tempLimit) then [EarFull] else [])
      else if e == EnterCurrent then [EarFull]
      else []
    case Resume =>
      (match b.core.wait
       case WaitTemp(shorted) => RestoreEvents(b, shorted)
       case _ => [])
    case FullDetect => FullEvents(b)
    case ShortInterrupt => if b.sense.currentLimit then [] else [EnterCurrent]
    case TalkEnd(shorted) =>
      if b.core.charge && !b.sense.tempLimit && !b.sense.currentLimit && shorted then [EnterCurrent] else []
    case Exchange(l, r) => OneEar(b.ears.left, l, Left) + OneEar(b.ears.right, r, Right)
    case _ => []
  }

  /** What `c` has said since `b`. */
  ghost predicate Says(b: Box, c: Box, messages: seq<Message>, events: seq<Event>) {
    c.log.sent == b.log.sent + messages && c.log.posted == b.log.posted + events
  }

  lemma SaysMore(b: Box, c: Box, d: Box, m: seq<Message>, e: seq<Event>, n: seq<Message>, f: seq<Event>)
    requires Says(b, c, m, e) && Says(c, d, n, f)
    ensures Says(b, d, m + n, e + f)
  {
  }

  lemma SetModeSays(b: Box, m: Mode)
    ensures Says(b, SetMode(b, m), [], [])
  {
  }

  lemma LidSays(b: Box, shorted: bool)
    ensures Says(b, ChargeLid(b, shorted), if b.core.lidCnt > 0x80 then [CloseLid] else [],
                 if b.core.lidCnt == 0x80 then StartEvents(b, shorted) else [])
  {
  }

  /** After the lid handshake's tick the query is never due at once. */
  lemma LidThenQuery(b: Box, shorted: bool)
    requires b.core.lidCnt != 0
    ensures b.core.lidCnt >= 0x80 ==> !QueryDue(ChargeLid(b, shorted))
    ensures ChargeLid(b, shorted).core.shutCnt == b.core.shutCnt
  {
  }

  lemma QuerySays(b: Box)
    ensures var c := ChargeSendPower(b);
      Says(b, c, if QueryDue(b) then [PowerClose] else [], []) && c.core.shutCnt == b.core.shutCnt
  {
  }

  lemma ShutSays(b: Box)
    ensures Says(b, ChargeShut(b), if b.core.shutCnt > 0x80 then [Shutdown] else [], [])
    ensures Says(b, LowPowerShut(b), if b.core.shutCnt > 0x80 then [Shutdown] else [], [])
  {
  }

  lemma RestSays(b: Box)
    ensures Says(b, ChargeShut(ChargeSendPower(b)),
                 (if QueryDue(b) then [PowerClose] else []) + if b.core.shutCnt > 0x80 then [Shutdown] else [], [])
  {
    QuerySays(b);
    ShutSays(ChargeSendPower(b));
    hide ChargeShut, ChargeSendPower;
  }

  lemma LidWaits(b: Box, shorted: bool)
    requires b.core.wait == NotWaiting
    ensures ChargeLid(b, shorted).core.wait != NotWaiting ==> b.core.lidCnt == 0x80
    ensures b.core.lidCnt < 0x80 ==> ChargeLid(b, shorted) == b
  {
  }

  lemma TickSays(b: Box, shorted: bool)
    requires Base(b) && b.core.mode == Charge && b.core.wait == NotWaiting
    ensures Says(b, ChargeTick(b, shorted), TickMessages(b), if b.core.lidCnt == 0x80 then StartEvents(b, shorted) else [])
  {
    assert b.core.lidCnt == 0 || (0x80 <= b.core.lidCnt && b.core.shutCnt == 0);
    hide Base;
    var c := ChargeLid(b, shorted);
    LidSays(b, shorted);
    LidWaits(b, shorted);
    RestSays(c);
    if b.core.lidCnt != 0 {
      LidThenQuery(b, shorted);
    }
    hide ChargeLid, ChargeShut, ChargeSendPower, StartEvents;
  }

  lemma HalfSecondSays(b: Box)
    ensures Says(b, HalfSecond(b), [], if BoostFails(b) && (b.ears.forceCharge != 0 || b.sense.tempLimit) then [EarFull] else [])
  {
  }

  lemma SmallSays(b: Box)
    ensures Says(b, AutoShutdownCheck(b), [], []) && AutoShutdownCheck(b).sense == b.sense
    ensures Says(b, EndCharge(b), [], []) && Says(b, BeginCharge(b), [], [])
  {
  }

  lemma ChargeSays(b: Box, e: Event, shorted: bool)
    requires Base(b) && b.core.mode == Charge && b.core.wait == NotWaiting
    ensures Says(b, ChargeEvent(b, e, shorted), if e == Ms200 then TickMessages(b) else [],
                 if e == Ms200 && b.core.lidCnt == 0x80 then StartEvents(b, shorted)
                 else if e == Ms500 && BoostFails(b) && (b.ears.forceCharge != 0 || b.sense.tempLimit) then [EarFull]
                 else if e == EnterCurrent then [EarFull] else [])
  {
    if e == Ms200 {
      TickSays(b, shorted);
    }
    hide Base, ChargeTick, SetMode, HalfSecond, AutoShutdownCheck, EndCharge, BeginCharge, BoostFails, TickMessages, StartEvents;
    SmallSays(b);
    match e
    case Ms500 => HalfSecondSays(b);
    case UsbIn => SetModeSays(SetTimer(b, false), Comm);
    case UsbOut => SetModeSays(AutoShutdownCheck(b), Comm);
    case LidOpened => SetModeSays(b, Comm);
    case EnterLowPower => SetModeSays(b, LowPower);
    case NeedShutdown => SetModeSays(b, LowPower);
    case EarFull => SmallSays(EndCharge(b));
    case _ =>
  }

  lemma CommSays(b: Box, e: Event, scanOk: bool)
    requires b.core.mode == Comm
    ensures Says(b, CommEvent(b, e, scanOk), MessagesOf(b, Handle(e, false, scanOk)), [])
  {
    hide SetMode;
    var c := PairConnecting(b);
    SetModeSays(SetAutoExit(c, CInt.U8(c.misc.autoExit + 1)), if b.sense.lowPower then LowPower else Charge);
    SetModeSays(b, if b.sense.lowPower then LowPower else Charge);
    SetModeSays(b, LowPower);
  }

  lemma LowPowerSays(b: Box, e: Event)
    requires Base(b) && b.core.mode == LowPower
    ensures Says(b, LowPowerEvent(b, e), if e == Ms200 then TickMessages(b) else [], [])
  {
    hide SetMode, LowPowerShut, Count;
    ShutSays(LowPowerLid(b));
    SetModeSays(b, Comm);
    SetModeSays(b, Charge);
  }

  lemma RestoreSays(b: Box, shorted: bool)
    ensures Says(b, TempRestore(b, shorted), [], RestoreEvents(b, shorted))
  {
  }

  /** What common handling says, and what it leaves for the mode's handler to decide by. */
  lemma CommonSays(b: Box, e: Event, shorted: bool)
    requires b.core.wait == NotWaiting && e != ExitTemp
    ensures var c := CommonEvent(b, e, shorted);
      && Says(b, c, [], if e == UsbIn && b.sense.currentLimit then [ExitCurrent] else [])
      && (e != EnterTemp && e != UsbIn ==> c == b)
      && c.core.mode == b.core.mode && c.core.wait == NotWaiting && c.core.pairStatus == b.core.pairStatus && c.misc.pairSucc == b.misc.pairSucc
  {
  }

  lemma ExitTempSays(b: Box, shorted: bool, scanOk: bool)
    requires b.core.wait == NotWaiting
    ensures var s := Handle(ExitTemp, shorted, scanOk);
      Says(b, OnEvent(b, ExitTemp, shorted, scanOk), MessagesOf(b, s), EventsOf(b, s))
  {
    RestoreSays(b, shorted);
    hide TempRestore, RestoreEvents;
  }

  lemma EventSays(b: Box, e: Event, shorted: bool, scanOk: bool)
    requires Base(b) && b.core.wait == NotWaiting
    ensures var s := Handle(e, shorted, scanOk);
      Says(b, OnEvent(b, e, shorted, scanOk), MessagesOf(b, s), EventsOf(b, s))
  {
    if e == ExitTemp {
      ExitTempSays(b, shorted, scanOk);
    } else {
      var c := CommonEvent(b, e, shorted);
      CommonSays(b, e, shorted);
      CommonEventKeeps(b, e, shorted);
      hide CommonEvent, ChargeEvent, CommEvent, LowPowerEvent, Base, TickMessages, StartEvents, BoostFails;
      match c.core.mode {
        case Charge => ChargeSays(c, e, shorted);
        case Comm => CommSays(c, e, scanOk);
        case LowPower => LowPowerSays(c, e);
      }
    }
  }

  lemma ResumeSays(b: Box)
    requires Base(b) && b.core.wait != NotWaiting
    ensures Says(b, OnResume(b), MessagesOf(b, Resume), EventsOf(b, Resume))
  {
    hide ChargeShut, ChargeSendPower, TempRestore, Count;
    match b.core.wait
    case NotWaiting =>
    case WaitLid => RestSays(ForceDone(OutputOn(StopWaiting(b))));
    case WaitTemp(shorted) => RestoreSays(StopWaiting(b), shorted);
  }

  lemma FullSays(b: Box)
    ensures Says(b, OnFullDetect(b), [], FullEvents(b))
  {
  }

  lemma ExchangeSays(b: Box, l: bool, r: bool)
    ensures Says(b, OnExchange(b, l, r), [], OneEar(b.ears.left, l, Left) + OneEar(b.ears.right, r, Right))
  {
  }

  /** MAIN: every step of every task sends exactly these messages and posts exactly these events. */
  lemma StepSays(b: Box, s: Step)
    requires Base(b) && Enabled(b, s)
    ensures Next(b, s).log.sent == b.log.sent + MessagesOf(b, s)
    ensures Next(b, s).log.posted == b.log.posted + EventsOf(b, s)
  {
    hide OnEvent, OnResume, OnFullDetect, OnExchange, FullEvents, SetMode, Count;
    match s
    case Handle(e, shorted, scanOk) => EventSays(b, e, shorted, scanOk);
    case Press(k) => SetModeSays(b, Comm);
    case Resume => ResumeSays(b);
    case FullDetect => FullSays(b);
    case Exchange(l, r) => ExchangeSays(b, l, r);
    case _ =>
  }
}
