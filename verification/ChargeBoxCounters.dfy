/** What every step makes of the rest of the case's variables: pairing, counters, timers, and who waits. */
module ChargeBoxCounters {
  import opened ChargeBox
  import opened ChargeBoxEars
  import opened ChargeBoxFields
  import opened ChargeBoxLedger
  import opened ChargeBoxOutputs
  import opened ChargeBoxSafety

  /** A key while the lid is open. */
  predicate Keyed(b: Box, s: Step, k: Key) {
    b.core.mode == Comm && s == Press(k)
  }

  /** COMM is entered. */
  predicate Opens(b: Box, s: Step) {
    Changes(b, s) && ModeAfter(b, s) == Comm
  }

  /** The tenth repeat of the long press: connect. */
  predicate PairsNow(b: Box, s: Step) {
    Keyed(b, s, Hold) && b.core.pairStatus == 1 && (b.misc.pairKey + 1) % 256 >= 10
  }

  /** Pairing: 0 none, 1 key held, 2 connecting. */
  function PairAfter(b: Box, s: Step): nat {
    if Changes(b, s) || (Keyed(b, s, Up) && b.core.pairStatus == 1) then 0
    else if Keyed(b, s, Long) && b.core.pairStatus == 0 then 1
    else if PairsNow(b, s) then 2
    else if b.core.mode == Comm && Handles(b, s, Ms500) && b.core.pairStatus == 2 && b.misc.pairSucc then 0
    else b.core.pairStatus
  }

  function PairKeyAfter(b: Box, s: Step): nat {
    if Opens(b, s) || (Keyed(b, s, Long) && b.core.pairStatus == 0) then 0
    else if Keyed(b, s, Hold) && b.core.pairStatus == 1 then (b.misc.pairKey + 1) % 256
    else b.misc.pairKey
  }

  predicate PairSuccAfter(b: Box, s: Step) {
    s == Paired || (b.misc.pairSucc && !Opens(b, s) && !PairsNow(b, s))
  }

  /** A key, the supply, or an ear coming or going. */
  predicate Active(s: Step) {
    s.Press? || (s.Handle? && (s.e == UsbIn || s.e == UsbOut || s.e.EarOnline? || s.e.EarOffline?))
  }

  /** Half seconds without activity in COMM, as a byte. */
  function AutoExitAfter(b: Box, s: Step): nat {
    if Opens(b, s) || (b.core.mode == Comm && Active(s)) then 0
    else if b.core.mode == Comm && Handles(b, s, Ms500) then (b.misc.autoExit + 1) % 256
    else b.misc.autoExit
  }

  /** Half seconds in CHARGE without external power and without boost. */
  function LdoFailAfter(b: Box, s: Step): nat {
    if b.core.mode != Charge || !Handles(b, s, Ms500) || b.sense.usb || b.sense.wireless then b.misc.ldoFail
    else if b.sense.ldo then 0
    else if b.misc.ldoFail < 20 then b.misc.ldoFail + 1
    else b.misc.ldoFail
  }

  /** Nothing but charging goes on, for ears that are not full. */
  predicate Undisturbed(b: Box, forceCharge: nat) {
    b.core.shutCnt == 0 && b.core.lidCnt == 0 && !b.ears.earFull && forceCharge == 0
  }

  function QueryCount(b: Box, forceCharge: nat): nat {
    if !Undisturbed(b, forceCharge) then b.misc.powerCheck
    else if b.misc.powerCheck >= 25 then 0
    else b.misc.powerCheck + 1
  }

  /** Ticks since the ears were last asked for their power; the end of the handshake is the first. */
  function PowerCheckAfter(b: Box, s: Step): nat {
    if Begins(b, s) then 0
    else if HandshakeEnds(b, s) then
      if WaitAfter(b, s) != NotWaiting || b.ears.earFull || ForceAfter(b, s) != 0 || b.sense.currentLimit then 0 else 1
    else if b.core.mode == Charge && Handles(b, s, Ms200) then QueryCount(b, b.ears.forceCharge)
    else if s == Resume && b.core.wait == WaitLid then QueryCount(b, ForceAfter(b, s))
    else b.misc.powerCheck
  }

  /** Waiting for the mutex while the ears are talked to: to switch on after the handshake, or after heat. */
  function WaitAfter(b: Box, s: Step): Wait {
    if s == Resume then NotWaiting
    else if b.core.hook == HookIdle then b.core.wait
    else if Handles(b, s, ExitTemp) && b.core.charge then WaitTemp(s.shorted)
    else if HandshakeEnds(b, s) && !b.sense.currentLimit && !s.shorted && !b.sense.tempLimit then WaitLid
    else b.core.wait
  }

  /** A short is seen. */
  predicate SeesShort(b: Box, s: Step) {
    || s == ShortInterrupt
    || (HandshakeEnds(b, s) && s.shorted)
    || (Handles(b, s, ExitTemp) && b.core.charge && b.core.hook == HookIdle && s.shorted)
    || (s == Resume && b.core.wait == WaitTemp(true))
    || (s == TalkEnd(true) && b.core.charge && !b.sense.tempLimit)
  }

  /** A short stays flagged until the supply is plugged in. */
  predicate LimitAfter(b: Box, s: Step) {
    SeesShort(b, s) || (b.sense.currentLimit && !Handles(b, s, UsbIn))
  }

  /** The timer that switches the boost off when it stays hot. */
  predicate TempTimerAfter(b: Box, s: Step) {
    if b.core.charge && Handles(b, s, EnterTemp) then true
    else if (b.core.charge && Handles(b, s, ExitTemp) && b.core.hook == HookIdle) || (s == Resume && b.core.wait.WaitTemp?) then false
    else if s == TempTimeout then b.sense.usb || b.sense.wireless
    else b.misc.tempTimer
  }

  /** Power-off: a request in LOWPOWER with the lid handshake over and the shutdown handshake running. */
  predicate OffAfter(b: Box, s: Step) {
    b.misc.off || (b.core.mode == LowPower && Handles(b, s, NeedShutdown) && b.core.lidCnt == 0 && b.core.shutCnt != 0)
  }

  predicate SameMisc(m: Misc, n: Misc) {
    && n.pairSucc == m.pairSucc && n.off == m.off && n.tempTimer == m.tempTimer && n.powerCheck == m.powerCheck
    && n.ldoFail == m.ldoFail && n.pairKey == m.pairKey && n.autoExit == m.autoExit
  }

  /** `c` with the pins and outputs as they may be, and the rest as in `b` but for what is named. */
  ghost predicate Same(b: Box, c: Box, misc: Misc, pairStatus: nat, wait: Wait, currentLimit: bool) {
    && SameMisc(misc, c.misc)
    && c.core.pairStatus == pairStatus
    && c.core.wait == wait
    && c.sense == b.sense.(currentLimit := currentLimit)
  }

  lemma SetModeRest(b: Box, m: Mode)
    requires m != b.core.mode
    ensures Same(b, SetMode(b, m),
                 if m == Comm then b.misc.(pairSucc := false, pairKey := 0, autoExit := 0)
                 else if m == Charge then b.misc.(powerCheck := 0) else b.misc,
                 if m == Comm || b.core.mode == Comm then 0 else b.core.pairStatus, b.core.wait, b.sense.currentLimit)
  {
  }

  lemma SmallRest(b: Box)
    ensures Same(b, AutoShutdownCheck(b), b.misc, b.core.pairStatus, b.core.wait, b.sense.currentLimit)
    ensures AutoShutdownCheck(b).core.mode == b.core.mode
    ensures Same(b, EndCharge(b), b.misc, b.core.pairStatus, b.core.wait, b.sense.currentLimit)
    ensures Same(b, BeginCharge(b), b.misc.(powerCheck := 0), b.core.pairStatus, b.core.wait, b.sense.currentLimit)
  {
  }

  lemma HalfSecondRest(b: Box)
    requires b.core.mode == Charge && b.core.wait == NotWaiting
    ensures Same(b, HalfSecond(b), b.misc.(ldoFail := LdoFailAfter(b, Handle(Ms500, false, false))),
                 b.core.pairStatus, b.core.wait, b.sense.currentLimit)
  {
  }

  /** The lid opens on `c`, which is `b` but for its timer. */
  lemma OpenedRest(b: Box, c: Box)
    requires Same(b, c, b.misc, b.core.pairStatus, b.core.wait, b.sense.currentLimit) && c.core.mode == Charge
    ensures Same(b, SetMode(c, Comm), b.misc.(pairSucc := false, pairKey := 0, autoExit := 0), 0, b.core.wait, b.sense.currentLimit)
  {
    SetModeRest(c, Comm);
    hide SetMode;
  }

  lemma LeavingIs(b: Box, e: Event, shorted: bool)
    requires b.core.mode == Charge && ModeEvent(e)
    ensures ChargeEvent(b, e, shorted) == match e
      case UsbIn => CommIfOpen(SetTimer(b, false))
      case UsbOut => CommIfOpen(AutoShutdownCheck(b))
      case LidOpened => SetMode(b, Comm)
      case _ => SetMode(b, LowPower)
    ensures LeavesOn(b, e) <==> (e != UsbIn && e != UsbOut) || b.sense.lidOpen
  {
    hide CommIfOpen, SetTimer, AutoShutdownCheck, SetMode;
  }

  lemma OpenIs(b: Box, c: Box)
    requires c.sense == b.sense
    ensures CommIfOpen(c) == if b.sense.lidOpen then SetMode(c, Comm) else c
  {
    hide SetMode;
  }

  lemma LeavingRest(b: Box, e: Event, shorted: bool)
    requires b.core.mode == Charge && ModeEvent(e)
    ensures var m := if e == EnterLowPower || e == NeedShutdown then LowPower else Comm;
      Same(b, ChargeEvent(b, e, shorted),
           if LeavesOn(b, e) && m == Comm then b.misc.(pairSucc := false, pairKey := 0, autoExit := 0) else b.misc,
           if LeavesOn(b, e) && m == Comm then 0 else b.core.pairStatus, b.core.wait, b.sense.currentLimit)
  {
    assert SetTimer(b, false).core.mode == Charge && SetTimer(b, false).sense == b.sense;
    assert AutoShutdownCheck(b).sense == b.sense;
    hide *;
    LeavingIs(b, e, shorted);
    SmallRest(b);
    TimerRest(b, false);
    match e
    case UsbIn =>
      OpenIs(b, SetTimer(b, false));
      OpenedRest(b, SetTimer(b, false));
    case UsbOut =>
      OpenIs(b, AutoShutdownCheck(b));
      OpenedRest(b, AutoShutdownCheck(b));
    case LidOpened => OpenedRest(b, b);
    case _ =>
      LeavesOnAlways(b, e);
      SetModeRest(b, LowPower);
  }

  lemma LeavesOnAlways(b: Box, e: Event)
    requires ModeEvent(e) && e != UsbIn && e != UsbOut && e != LidOpened
    ensures e == EnterLowPower || e == NeedShutdown
  {
  }

  lemma FullRest(b: Box)
    ensures Same(b, AutoShutdownCheck(EndCharge(b)), b.misc, b.core.pairStatus, b.core.wait, b.sense.currentLimit)
  {
    hide AutoShutdownCheck, EndCharge;
    SmallRest(b);
    SmallRest(EndCharge(b));
  }

  lemma TimerRest(b: Box, on: bool)
    ensures Same(b, SetTimer(b, on), b.misc, b.core.pairStatus, b.core.wait, b.sense.currentLimit)
    ensures Same(b, b, b.misc, b.core.pairStatus, b.core.wait, b.sense.currentLimit)
  {
  }

  lemma ShortRest(b: Box)
    ensures Same(b, GoToSleep(b.(core := b.core.(pwr := false, boost := false))), b.misc,
                 b.core.pairStatus, b.core.wait, b.sense.currentLimit)
  {
  }

  lemma StayingRest(b: Box, e: Event, shorted: bool)
    requires b.core.mode == Charge && b.core.wait == NotWaiting && !ModeEvent(e) && e != Ms200 && e != Ms500
    ensures Same(b, ChargeEvent(b, e, shorted), if e == ExitCurrent then b.misc.(powerCheck := 0) else b.misc,
                 b.core.pairStatus, b.core.wait, b.sense.currentLimit)
  {
    hide *;
    ChargeBoxEars.StayingIs(b, e, shorted);
    match e
    case EarFull => FullRest(b);
    case LocalFull => SmallRest(b);
    case WirelessOff => SmallRest(b);
    case WirelessOn => TimerRest(b, false);
    case ExitCurrent => SmallRest(b);
    case EnterCurrent => ShortRest(b);
    case _ => TimerRest(b, false);
  }

  /** The start of charging, by what it finds. */
  lemma StartIs(b: Box, shorted: bool)
    ensures var c := CheckShort(b.(core := b.core.(lidCnt := 0), misc := b.misc.(powerCheck := 0)), shorted);
      var d := c.(core := c.core.(charge := true));
      ChargeStart(b, shorted) ==
        if b.sense.currentLimit then GoToSleep(c)
        else if shorted then c
        else if b.sense.tempLimit then ForceDone(Post(d, EnterTemp))
        else if b.core.hook != HookIdle then d.(core := d.core.(wait := WaitLid))
        else ForceDone(OutputOn(d))
  {
    CheckedRest(b, shorted);
    hide CheckShort, GoToSleep, ForceDone, Post, OutputOn;
  }

  lemma CheckedRest(b: Box, shorted: bool)
    ensures var c := CheckShort(b.(core := b.core.(lidCnt := 0), misc := b.misc.(powerCheck := 0)), shorted);
      && c.misc == b.misc.(powerCheck := 0) && c.core == b.core.(lidCnt := 0)
      && c.sense == b.sense.(currentLimit := b.sense.currentLimit || shorted)
  {
  }

  lemma ForceRest(b: Box)
    ensures Same(b, ForceDone(b), b.misc, b.core.pairStatus, b.core.wait, b.sense.currentLimit)
    ensures Same(b, GoToSleep(b), b.misc, b.core.pairStatus, b.core.wait, b.sense.currentLimit)
  {
  }

  lemma StartedRest(c: Box)
    ensures var d := c.(core := c.core.(charge := true));
      && Same(c, ForceDone(Post(d, EnterTemp)), c.misc, c.core.pairStatus, c.core.wait, c.sense.currentLimit)
      && Same(c, d.(core := d.core.(wait := WaitLid)), c.misc, c.core.pairStatus, WaitLid, c.sense.currentLimit)
      && Same(c, ForceDone(OutputOn(d)), c.misc, c.core.pairStatus, c.core.wait, c.sense.currentLimit)
  {
    var d := c.(core := c.core.(charge := true));
    ForceRest(Post(d, EnterTemp));
    ForceRest(OutputOn(d));
    hide ForceDone, GoToSleep;
  }

  lemma StartRest(b: Box, shorted: bool)
    requires b.core.wait == NotWaiting
    ensures var waits := !b.sense.currentLimit && !shorted && !b.sense.tempLimit && b.core.hook != HookIdle;
      Same(b, ChargeStart(b, shorted), b.misc.(powerCheck := 0), b.core.pairStatus,
           if waits then WaitLid else NotWaiting, b.sense.currentLimit || shorted)
  {
    var c := CheckShort(b.(core := b.core.(lidCnt := 0), misc := b.misc.(powerCheck := 0)), shorted);
    StartIs(b, shorted);
    CheckedRest(b, shorted);
    StartedRest(c);
    ForceRest(c);
    hide ChargeStart, CheckShort, GoToSleep, ForceDone, Post, OutputOn;
  }

  lemma WaitsIs(b: Box, shorted: bool)
    requires b.core.mode == Charge && b.core.wait == NotWaiting
    ensures WaitAfter(b, Handle(Ms200, shorted, false)) ==
      if b.core.lidCnt == 0x80 && !b.sense.currentLimit && !shorted && !b.sense.tempLimit && b.core.hook != HookIdle then WaitLid
      else NotWaiting
  {
  }

  lemma CountdownRest(b: Box, shorted: bool)
    requires b.core.lidCnt != 0x80
    ensures Same(b, ChargeLid(b, shorted), b.misc, b.core.pairStatus, b.core.wait, b.sense.currentLimit)
  {
    if b.core.lidCnt > 0x80 {
      var c := b.(core := b.core.(lidCnt := b.core.lidCnt - 1));
      assert ChargeLid(b, shorted) == Send(c, CloseLid);
      hide ChargeLid;
      SendRest(c, CloseLid);
    } else {
      assert ChargeLid(b, shorted) == b;
      hide ChargeLid;
    }
  }

  /** The end of the handshake. */
  lemma LidRest(b: Box, shorted: bool)
    requires b.core.mode == Charge && b.core.wait == NotWaiting
    ensures var s := Handle(Ms200, shorted, false);
      Same(b, ChargeLid(b, shorted), if b.core.lidCnt == 0x80 then b.misc.(powerCheck := 0) else b.misc,
           b.core.pairStatus, WaitAfter(b, s), b.sense.currentLimit || (b.core.lidCnt == 0x80 && shorted))
  {
    assert b.core.lidCnt == 0x80 ==> ChargeLid(b, shorted) == ChargeStart(b, shorted);
    hide *;
    WaitsIs(b, shorted);
    if b.core.lidCnt == 0x80 {
      StartRest(b, shorted);
    } else {
      CountdownRest(b, shorted);
    }
  }

  lemma LidUndisturbed(b: Box, shorted: bool)
    requires Base(b) && b.core.mode == Charge && b.core.wait == NotWaiting
    ensures var c := ChargeLid(b, shorted);
      Undisturbed(c, c.ears.forceCharge) <==>
        (b.core.lidCnt == 0 && Undisturbed(b, b.ears.forceCharge))
        || (b.core.lidCnt == 0x80 && !b.ears.earFull && ForceAfter(b, Handle(Ms200, shorted, false)) == 0 && !b.sense.currentLimit)
  {
    hide Count;
  }

  lemma QueryRest(b: Box)
    ensures Same(b, ChargeShut(ChargeSendPower(b)), b.misc.(powerCheck := QueryCount(b, b.ears.forceCharge)),
                 b.core.pairStatus, b.core.wait, b.sense.currentLimit)
  {
  }

  lemma TickIs(b: Box, shorted: bool, c: Box)
    requires c == ChargeLid(b, shorted)
    ensures ChargeTick(b, shorted) == if c.core.wait != NotWaiting then c else ChargeShut(ChargeSendPower(c))
  {
  }

  /** Only the shorted argument decides about a tick. */
  lemma ScanIrrelevant(b: Box, shorted: bool, scanOk: bool)
    ensures var s, r := Handle(Ms200, shorted, scanOk), Handle(Ms200, shorted, false);
      WaitAfter(b, s) == WaitAfter(b, r) && ForceAfter(b, s) == ForceAfter(b, r)
  {
    hide BothOnline, BoostFails;
  }

  lemma TickPower(b: Box, s: Step)
    requires b.core.mode == Charge && Handles(b, s, Ms200)
    ensures PowerCheckAfter(b, s) ==
      if b.core.lidCnt != 0x80 then QueryCount(b, b.ears.forceCharge)
      else if WaitAfter(b, s) != NotWaiting || b.ears.earFull || ForceAfter(b, s) != 0 || b.sense.currentLimit then 0 else 1
  {
    hide WaitAfter, ForceAfter, QueryCount, BothOnline, BoostFails;
  }

  lemma PowerCheckIs(b: Box, c: Box, shorted: bool, scanOk: bool)
    requires Base(b) && b.core.mode == Charge && b.core.wait == NotWaiting && c == ChargeLid(b, shorted)
    ensures PowerCheckAfter(b, Handle(Ms200, shorted, scanOk)) ==
      if c.core.wait != NotWaiting then c.misc.powerCheck else QueryCount(c, c.ears.forceCharge)
  {
    LidRest(b, shorted);
    LidUndisturbed(b, shorted);
    ScanIrrelevant(b, shorted, scanOk);
    TickPower(b, Handle(Ms200, shorted, scanOk));
    if b.core.lidCnt != 0x80 {
      UndisturbedIdle(b);
      LidWaits(b, shorted);
      NoneWaits(b, shorted);
    }
    hide ChargeLid, Base, Undisturbed, WaitAfter, ForceAfter, PowerCheckAfter;
  }

  lemma NoneWaits(b: Box, shorted: bool)
    requires b.core.wait == NotWaiting && b.core.lidCnt != 0x80
    ensures WaitAfter(b, Handle(Ms200, shorted, false)) == NotWaiting
  {
  }

  lemma UndisturbedIdle(b: Box)
    ensures Undisturbed(b, b.ears.forceCharge) ==> b.core.lidCnt == 0
  {
  }

  lemma TickRest(b: Box, shorted: bool, scanOk: bool)
    requires Base(b) && b.core.mode == Charge && b.core.wait == NotWaiting
    ensures var s := Handle(Ms200, shorted, scanOk);
      Same(b, ChargeTick(b, shorted), b.misc.(powerCheck := PowerCheckAfter(b, s)),
           b.core.pairStatus, WaitAfter(b, s), b.sense.currentLimit || (b.core.lidCnt == 0x80 && shorted))
  {
    var c := ChargeLid(b, shorted);
    TickIs(b, shorted, c);
    LidRest(b, shorted);
    PowerCheckIs(b, c, shorted, scanOk);
    QueryRest(c);
    hide ChargeTick, ChargeLid, ChargeShut, ChargeSendPower, Base, PowerCheckAfter, QueryCount;
    assert WaitAfter(b, Handle(Ms200, shorted, scanOk)) == WaitAfter(b, Handle(Ms200, shorted, false));
    hide WaitAfter;
  }

  lemma SendRest(b: Box, m: Message)
    ensures Same(b, Send(b, m), b.misc, b.core.pairStatus, b.core.wait, b.sense.currentLimit)
    ensures Send(b, m).misc == b.misc && Send(b, m).core == b.core && Send(b, m).sense == b.sense
  {
  }

  lemma SetExitRest(b: Box, c: Box, n: nat)
    requires Same(b, c, b.misc, c.core.pairStatus, b.core.wait, b.sense.currentLimit)
    ensures Same(b, SetAutoExit(c, n), b.misc.(autoExit := n), c.core.pairStatus, b.core.wait, b.sense.currentLimit)
  {
  }

  lemma StaysIs(b: Box, e: Event, scanOk: bool)
    requires b.core.mode == Comm && b.core.wait == NotWaiting && ModeAfter(b, Handle(e, false, scanOk)) == Comm
    ensures CommEvent(b, e, scanOk) ==
      if e == Ms500 then SetAutoExit(PairConnecting(b), (b.misc.autoExit + 1) % 256)
      else if e == UsbIn || e == UsbOut then SetAutoExit(Send(b, PowerOpen), 0)
      else if e.EarOnline? || e.EarOffline? then SetAutoExit(b, 0)
      else if e == Ms200 && scanOk then Send(b, PowerOpen)
      else b
  {
    ExitRest(b);
    hide SetMode, PairConnecting, Send;
  }

  lemma StaysAfter(b: Box, s: Step)
    requires b.core.mode == Comm && b.core.wait == NotWaiting && s.Handle? && ModeAfter(b, s) == Comm
    ensures PairAfter(b, s) == if s.e == Ms500 && b.core.pairStatus == 2 && b.misc.pairSucc then 0 else b.core.pairStatus
    ensures AutoExitAfter(b, s) ==
      if s.e == Ms500 then (b.misc.autoExit + 1) % 256
      else if s.e == UsbIn || s.e == UsbOut || s.e.EarOnline? || s.e.EarOffline? then 0
      else b.misc.autoExit
  {
  }

  lemma PairRest(b: Box)
    ensures Same(b, PairConnecting(b), b.misc, PairConnecting(b).core.pairStatus, b.core.wait, b.sense.currentLimit)
    ensures PairConnecting(b).core.pairStatus == if b.core.pairStatus == 2 && b.misc.pairSucc then 0 else b.core.pairStatus
  {
  }

  lemma CommStays(b: Box, e: Event, scanOk: bool)
    requires b.core.mode == Comm && b.core.wait == NotWaiting && ModeAfter(b, Handle(e, false, scanOk)) == Comm
    ensures var s := Handle(e, false, scanOk);
      Same(b, CommEvent(b, e, scanOk), b.misc.(autoExit := AutoExitAfter(b, s)), PairAfter(b, s), b.core.wait, b.sense.currentLimit)
  {
    hide *;
    StaysIs(b, e, scanOk);
    StaysAfter(b, Handle(e, false, scanOk));
    TimerRest(b, false);
    if e == Ms500 {
      PairRest(b);
      SetExitRest(b, PairConnecting(b), (b.misc.autoExit + 1) % 256);
    } else if e == UsbIn || e == UsbOut {
      SendRest(b, PowerOpen);
      SetExitRest(b, Send(b, PowerOpen), 0);
    } else if e.EarOnline? || e.EarOffline? {
      SetExitRest(b, b, 0);
    } else {
      SendRest(b, PowerOpen);
      assert b.misc.(autoExit := b.misc.autoExit) == b.misc;
    }
  }

  lemma SetModeAfter(b: Box, c: Box, m: Mode, n: nat)
    requires c.core.mode == Comm && m != Comm
    requires Same(b, c, b.misc.(autoExit := n), c.core.pairStatus, b.core.wait, b.sense.currentLimit)
    ensures Same(b, SetMode(c, m), b.misc.(autoExit := n, powerCheck := if m == Charge then 0 else b.misc.powerCheck),
                 0, b.core.wait, b.sense.currentLimit)
  {
    SetModeRest(c, m);
    hide SetMode;
  }

  lemma CommLeaves(b: Box, e: Event, scanOk: bool)
    requires b.core.mode == Comm && b.core.wait == NotWaiting && ModeAfter(b, Handle(e, false, scanOk)) != Comm
    ensures var s := Handle(e, false, scanOk);
      Same(b, CommEvent(b, e, scanOk),
           b.misc.(autoExit := if e == Ms500 then (b.misc.autoExit + 1) % 256 else b.misc.autoExit,
                   powerCheck := if ModeAfter(b, s) == Charge then 0 else b.misc.powerCheck),
           0, b.core.wait, b.sense.currentLimit)
  {
    hide SetMode, PairConnecting;
    var m := ModeAfter(b, Handle(e, false, scanOk));
    if e == Ms500 {
      ExitRest(b);
      var c := SetAutoExit(PairConnecting(b), (b.misc.autoExit + 1) % 256);
      assert CommEvent(b, e, scanOk) == SetMode(c, m);
      hide CommEvent, ModeAfter;
      SetModeAfter(b, c, m, (b.misc.autoExit + 1) % 256);
    } else {
      assert CommEvent(b, e, scanOk) == SetMode(b, m);
      hide CommEvent, ModeAfter;
      SetModeAfter(b, b, m, b.misc.autoExit);
    }
  }

  lemma ExitRest(b: Box)
    requires b.core.mode == Comm
    ensures var c := SetAutoExit(PairConnecting(b), (b.misc.autoExit + 1) % 256);
      c.core.mode == Comm && c.misc.autoExit == (PairConnecting(b).misc.autoExit + 1) % 256
      && c.sense == b.sense && PairConnecting(b).misc.autoExit == b.misc.autoExit
      && Same(b, c, b.misc.(autoExit := (b.misc.autoExit + 1) % 256), c.core.pairStatus, b.core.wait, b.sense.currentLimit)
  {
  }

  /** LOWPOWER stays, and no tick. */
  lemma LowPowerStays(b: Box, e: Event)
    requires b.core.mode == LowPower && e != Ms200 && e != LidOpened && e != ExitLowPower
    ensures Same(b, LowPowerEvent(b, e),
                 b.misc.(off := b.misc.off || (e == NeedShutdown && b.core.lidCnt == 0 && b.core.shutCnt != 0)),
                 b.core.pairStatus, b.core.wait, b.sense.currentLimit)
  {
    if e == NeedShutdown {
      ShutdownIs(b);
    } else {
      TimerIs(b, e);
      hide LowPowerEvent;
      var on := LowPowerEvent(b, e).core.shutdownTimer;
      assert LowPowerEvent(b, e) == SetTimer(b, on);
      hide SetTimer;
      assert b.misc.(off := b.misc.off) == b.misc;
      TimerRest(b, on);
      hide *;
    }
  }

  lemma TimerIs(b: Box, e: Event)
    requires e != Ms200 && e != LidOpened && e != ExitLowPower && e != NeedShutdown
    ensures LowPowerEvent(b, e) == SetTimer(b, LowPowerEvent(b, e).core.shutdownTimer)
  {
  }

  lemma ShutdownIs(b: Box)
    ensures Same(b, LowPowerEvent(b, NeedShutdown), b.misc.(off := b.misc.off || (b.core.lidCnt == 0 && b.core.shutCnt != 0)),
                 b.core.pairStatus, b.core.wait, b.sense.currentLimit)
  {
    hide SetMode, LowPowerShut, LowPowerLid;
  }

  lemma OffIs(b: Box, e: Event, scanOk: bool)
    requires b.core.mode == LowPower && b.core.wait == NotWaiting
    ensures var s := Handle(e, false, scanOk);
      && OffAfter(b, s) == (b.misc.off || (e == NeedShutdown && b.core.lidCnt == 0 && b.core.shutCnt != 0))
      && (e != LidOpened && e != ExitLowPower ==> ModeAfter(b, s) == LowPower)
      && (e == LidOpened || e == ExitLowPower ==> ModeAfter(b, s) != LowPower && LowPowerEvent(b, e) == SetMode(b, ModeAfter(b, s)))
      && (e == Ms200 ==> LowPowerEvent(b, e) == LowPowerShut(LowPowerLid(b)))
  {
    hide SetMode, LowPowerShut, LowPowerLid;
  }

  lemma LowPowerRest(b: Box, e: Event, scanOk: bool)
    requires b.core.mode == LowPower && b.core.wait == NotWaiting
    ensures var s := Handle(e, false, scanOk);
      var m := ModeAfter(b, s);
      Same(b, LowPowerEvent(b, e),
           if m == Comm then b.misc.(pairSucc := false, pairKey := 0, autoExit := 0)
           else if m == Charge then b.misc.(powerCheck := 0)
           else b.misc.(off := OffAfter(b, s)),
           if m == Comm then 0 else b.core.pairStatus, b.core.wait, b.sense.currentLimit)
  {
    hide *;
    OffIs(b, e, scanOk);
    if e == Ms200 {
      GoodbyeRest(b);
      assert b.misc.(off := b.misc.off) == b.misc;
    } else if e == LidOpened || e == ExitLowPower {
      SetModeRest(b, ModeAfter(b, Handle(e, false, scanOk)));
    } else {
      LowPowerStays(b, e);
    }
  }

  lemma LowLidRest(b: Box)
    ensures Same(b, LowPowerLid(b), b.misc, b.core.pairStatus, b.core.wait, b.sense.currentLimit)
  {
  }

  lemma LowShutRest(b: Box)
    ensures Same(b, LowPowerShut(b), b.misc, b.core.pairStatus, b.core.wait, b.sense.currentLimit)
  {
  }

  lemma GoodbyeRest(b: Box)
    ensures Same(b, LowPowerShut(LowPowerLid(b)), b.misc, b.core.pairStatus, b.core.wait, b.sense.currentLimit)
  {
    LowLidRest(b);
    LowShutRest(LowPowerLid(b));
    hide LowPowerShut, LowPowerLid;
  }

  /** All of it together; the pins are left to `PortsAfter`. */
  function MiscAfter(b: Box, s: Step): Misc {
    Misc(PairSuccAfter(b, s), b.misc.ports, OffAfter(b, s), TempTimerAfter(b, s),
         PowerCheckAfter(b, s), LdoFailAfter(b, s), PairKeyAfter(b, s), AutoExitAfter(b, s))
  }

  ghost predicate RestFollows(b: Box, s: Step, c: Box) {
    Same(b, c, MiscAfter(b, s), PairAfter(b, s), WaitAfter(b, s), LimitAfter(b, s))
  }

  // ---------- events ----------

  predicate TempEvent(e: Event) {
    e == EnterTemp || e == ExitTemp
  }

  /** The rest after an event handled in CHARGE. */
  lemma ChargeIs(b: Box, s: Step)
    requires b.core.mode == Charge && b.core.wait == NotWaiting && s.Handle? && s.e != Ms200 && !TempEvent(s.e)
    ensures MiscAfter(b, s) ==
      (if LeavesOn(b, s.e) && s.e != EnterLowPower && s.e != NeedShutdown then b.misc.(pairSucc := false, pairKey := 0, autoExit := 0)
       else if s.e == Ms500 then b.misc.(ldoFail := LdoFailAfter(b, s))
       else if s.e == ExitCurrent then b.misc.(powerCheck := 0) else b.misc)
    ensures b.core.pairStatus == 0 ==> PairAfter(b, s) == 0
    ensures WaitAfter(b, s) == NotWaiting && LimitAfter(b, s) == (b.sense.currentLimit && s.e != UsbIn)
  {
    hide BothOnline, BoostFails;
  }

  lemma TickMisc(b: Box, s: Step)
    requires b.core.mode == Charge && b.core.wait == NotWaiting && s.Handle? && s.e == Ms200
    ensures MiscAfter(b, s) == b.misc.(powerCheck := PowerCheckAfter(b, s)) && PairAfter(b, s) == b.core.pairStatus
    ensures LimitAfter(b, s) == (b.sense.currentLimit || (b.core.lidCnt == 0x80 && s.shorted))
  {
    hide PowerCheckAfter;
  }

  lemma TickFollows(b: Box, shorted: bool, scanOk: bool)
    requires Base(b) && b.core.mode == Charge && b.core.wait == NotWaiting
    ensures RestFollows(b, Handle(Ms200, shorted, scanOk), ChargeTick(b, shorted))
  {
    TickRest(b, shorted, scanOk);
    TickMisc(b, Handle(Ms200, shorted, scanOk));
    hide ChargeTick, MiscAfter, PairAfter, WaitAfter, LimitAfter, PowerCheckAfter, Base;
  }

  lemma LeavingFollows(b: Box, e: Event, shorted: bool, scanOk: bool)
    requires b.core.mode == Charge && b.core.wait == NotWaiting && b.core.pairStatus == 0 && ModeEvent(e)
    requires e == UsbIn ==> !b.sense.currentLimit
    ensures RestFollows(b, Handle(e, shorted, scanOk), ChargeEvent(b, e, shorted))
  {
    LeavingRest(b, e, shorted);
    ChargeIs(b, Handle(e, shorted, scanOk));
    hide ChargeEvent, MiscAfter, PairAfter, WaitAfter, LimitAfter;
    hide LdoFailAfter;
    if LeavesOn(b, e) {
      hide LeavesOn;
    } else {
      hide LeavesOn;
    }
  }

  lemma StayingFollows(b: Box, e: Event, shorted: bool, scanOk: bool)
    requires b.core.mode == Charge && b.core.wait == NotWaiting && b.core.pairStatus == 0
    requires !ModeEvent(e) && e != Ms200 && !TempEvent(e)
    ensures RestFollows(b, Handle(e, shorted, scanOk), ChargeEvent(b, e, shorted))
  {
    var s := Handle(e, shorted, scanOk);
    ChargeIs(b, s);
    assert !LeavesOn(b, e);
    if e == Ms500 {
      HalfSecondRest(b);
      assert LdoFailAfter(b, s) == LdoFailAfter(b, Handle(Ms500, false, false));
      hide HalfSecond;
    } else {
      StayingRest(b, e, shorted);
      hide ChargeEvent;
    }
    hide MiscAfter, PairAfter, WaitAfter, LimitAfter, LdoFailAfter;
  }

  lemma ChargeRest(b: Box, e: Event, shorted: bool, scanOk: bool)
    requires Base(b) && b.core.mode == Charge && b.core.wait == NotWaiting && !TempEvent(e)
    requires e == UsbIn ==> !b.sense.currentLimit
    ensures RestFollows(b, Handle(e, shorted, scanOk), ChargeEvent(b, e, shorted))
  {
    assert b.core.pairStatus == 0;
    hide RestFollows;
    if e == Ms200 {
      TickFollows(b, shorted, scanOk);
      ChargeBoxEars.TickIs(b, shorted);
    } else if ModeEvent(e) {
      hide Base, ChargeEvent;
      LeavingFollows(b, e, shorted, scanOk);
    } else {
      hide Base, ChargeEvent;
      StayingFollows(b, e, shorted, scanOk);
    }
  }

  lemma CommIs(b: Box, s: Step)
    requires b.core.mode == Comm && !b.core.charge && b.core.wait == NotWaiting && s.Handle? && !TempEvent(s.e)
    ensures MiscAfter(b, s) ==
      b.misc.(autoExit := AutoExitAfter(b, s), powerCheck := if ModeAfter(b, s) == Charge then 0 else b.misc.powerCheck)
    ensures ModeAfter(b, s) != Comm ==>
      PairAfter(b, s) == 0 && AutoExitAfter(b, s) == (if s.e == Ms500 then (b.misc.autoExit + 1) % 256 else b.misc.autoExit)
    ensures WaitAfter(b, s) == NotWaiting && LimitAfter(b, s) == (b.sense.currentLimit && s.e != UsbIn)
  {
    hide BothOnline, BoostFails, PairAfter;
    if ModeAfter(b, s) != Comm {
      CommOut(b, s);
    }
  }

  lemma CommOut(b: Box, s: Step)
    requires b.core.mode == Comm && ModeAfter(b, s) != Comm && s.Handle?
    ensures PairAfter(b, s) == 0
  {
  }

  lemma CommFollows(b: Box, e: Event, shorted: bool, scanOk: bool)
    requires b.core.mode == Comm && !b.core.charge && b.core.wait == NotWaiting && !TempEvent(e)
    requires e == UsbIn ==> !b.sense.currentLimit
    ensures RestFollows(b, Handle(e, shorted, scanOk), CommEvent(b, e, scanOk))
  {
    var s := Handle(e, shorted, scanOk);
    var r := Handle(e, false, scanOk);
    CommIs(b, s);
    CommSame(b, e, shorted, scanOk);
    if ModeAfter(b, r) == Comm {
      CommStays(b, e, scanOk);
    } else {
      CommLeaves(b, e, scanOk);
    }
    hide CommEvent, MiscAfter, PairAfter, WaitAfter, LimitAfter, AutoExitAfter, ModeAfter;
  }

  lemma CommSame(b: Box, e: Event, shorted: bool, scanOk: bool)
    requires b.core.mode == Comm
    ensures var s, r := Handle(e, shorted, scanOk), Handle(e, false, scanOk);
      ModeAfter(b, s) == ModeAfter(b, r) && PairAfter(b, s) == PairAfter(b, r) && AutoExitAfter(b, s) == AutoExitAfter(b, r)
  {
  }

  lemma LowPowerIs(b: Box, s: Step)
    requires b.core.mode == LowPower && !b.core.charge && b.core.wait == NotWaiting && s.Handle? && !TempEvent(s.e)
    ensures MiscAfter(b, s) ==
      if ModeAfter(b, s) == Comm then b.misc.(pairSucc := false, pairKey := 0, autoExit := 0)
      else if ModeAfter(b, s) == Charge then b.misc.(powerCheck := 0)
      else b.misc.(off := OffAfter(b, s))
    ensures b.core.pairStatus == 0 ==> PairAfter(b, s) == 0
    ensures WaitAfter(b, s) == NotWaiting && LimitAfter(b, s) == (b.sense.currentLimit && s.e != UsbIn)
  {
    hide BothOnline, BoostFails;
  }

  lemma LowPowerFollows(b: Box, e: Event, shorted: bool, scanOk: bool)
    requires b.core.mode == LowPower && !b.core.charge && b.core.wait == NotWaiting && b.core.pairStatus == 0 && !TempEvent(e)
    requires e == UsbIn ==> !b.sense.currentLimit
    ensures RestFollows(b, Handle(e, shorted, scanOk), LowPowerEvent(b, e))
  {
    LowPowerRest(b, e, scanOk);
    LowPowerIs(b, Handle(e, shorted, scanOk));
    assert ModeAfter(b, Handle(e, shorted, scanOk)) == ModeAfter(b, Handle(e, false, scanOk));
    assert OffAfter(b, Handle(e, shorted, scanOk)) == OffAfter(b, Handle(e, false, scanOk));
    hide LowPowerEvent, MiscAfter, PairAfter, WaitAfter, LimitAfter, OffAfter, ModeAfter;
  }

  lemma RestoreRest(b: Box, shorted: bool)
    ensures Same(b, TempRestore(b, shorted), b.misc.(tempTimer := false), b.core.pairStatus, b.core.wait,
                 b.sense.currentLimit || shorted)
  {
  }

  /** Temperature protection is common handling alone. */
  lemma TempIs(b: Box, e: Event, shorted: bool, scanOk: bool)
    requires b.core.wait == NotWaiting && TempEvent(e)
    ensures OnEvent(b, e, shorted, scanOk) == CommonEvent(b, e, shorted)
  {
    hide CommonEvent;
  }

  lemma TempMisc(b: Box, s: Step)
    requires b.core.wait == NotWaiting && s.Handle? && TempEvent(s.e) && (b.core.charge ==> b.core.mode == Charge)
    ensures MiscAfter(b, s) == b.misc.(tempTimer := TempTimerAfter(b, s)) && PairAfter(b, s) == b.core.pairStatus
  {
    hide BothOnline, BoostFails, TempTimerAfter;
  }

  lemma HeatIs(b: Box, shorted: bool, scanOk: bool)
    requires b.core.wait == NotWaiting
    ensures var s := Handle(EnterTemp, shorted, scanOk);
      TempTimerAfter(b, s) == (b.core.charge || b.misc.tempTimer) && WaitAfter(b, s) == NotWaiting && LimitAfter(b, s) == b.sense.currentLimit
  {
  }

  lemma HeatRest(b: Box, shorted: bool)
    ensures Same(b, CommonEvent(b, EnterTemp, shorted), b.misc.(tempTimer := b.core.charge || b.misc.tempTimer),
                 b.core.pairStatus, b.core.wait, b.sense.currentLimit)
  {
  }

  lemma HeatFollows(b: Box, shorted: bool, scanOk: bool)
    requires b.core.wait == NotWaiting
    ensures var s := Handle(EnterTemp, shorted, scanOk);
      Same(b, CommonEvent(b, EnterTemp, shorted), b.misc.(tempTimer := TempTimerAfter(b, s)), b.core.pairStatus, WaitAfter(b, s), LimitAfter(b, s))
  {
    hide *;
    HeatIs(b, shorted, scanOk);
    HeatRest(b, shorted);
  }

  lemma CoolIs(b: Box, shorted: bool, scanOk: bool)
    requires b.core.wait == NotWaiting
    ensures var s := Handle(ExitTemp, shorted, scanOk);
      var ends := b.core.charge && b.core.hook == HookIdle;
      && TempTimerAfter(b, s) == (if ends then false else b.misc.tempTimer)
      && WaitAfter(b, s) == (if b.core.charge && !ends then WaitTemp(shorted) else NotWaiting)
      && LimitAfter(b, s) == (b.sense.currentLimit || (ends && shorted))
  {
  }

  lemma WaitingRest(b: Box, wait: Wait)
    ensures Same(b, b.(core := b.core.(wait := wait)), b.misc, b.core.pairStatus, wait, b.sense.currentLimit)
  {
  }

  lemma CoolFollows(b: Box, shorted: bool, scanOk: bool)
    requires b.core.wait == NotWaiting
    ensures var s := Handle(ExitTemp, shorted, scanOk);
      Same(b, CommonEvent(b, ExitTemp, shorted), b.misc.(tempTimer := TempTimerAfter(b, s)), b.core.pairStatus, WaitAfter(b, s), LimitAfter(b, s))
  {
    CoolIs(b, shorted, scanOk);
    RestoreRest(b, shorted);
    WaitingRest(b, WaitTemp(shorted));
    TimerRest(b, false);
    assert b.misc.(tempTimer := b.misc.tempTimer) == b.misc;
    hide TempRestore, TempTimerAfter, WaitAfter, LimitAfter, Same;
  }

  lemma TempFollows(b: Box, e: Event, shorted: bool, scanOk: bool)
    requires b.core.wait == NotWaiting && TempEvent(e) && (b.core.charge ==> b.core.mode == Charge)
    ensures RestFollows(b, Handle(e, shorted, scanOk), OnEvent(b, e, shorted, scanOk))
  {
    TempIs(b, e, shorted, scanOk);
    TempMisc(b, Handle(e, shorted, scanOk));
    hide OnEvent, CommonEvent, MiscAfter, PairAfter, WaitAfter, LimitAfter, TempTimerAfter;
    if e == EnterTemp {
      HeatFollows(b, shorted, scanOk);
    } else {
      CoolFollows(b, shorted, scanOk);
    }
  }

  /** What common handling changes of an event that is not about temperature. */
  lemma CommonIs(b: Box, e: Event, shorted: bool)
    requires b.core.wait == NotWaiting && !TempEvent(e)
    ensures var c := CommonEvent(b, e, shorted);
      && (e != UsbIn ==> c == b)
      && c.core == b.core && c.misc == b.misc && c.ears == b.ears
      && c.sense == b.sense.(currentLimit := b.sense.currentLimit && e != UsbIn)
  {
  }

  lemma SameAfter(b: Box, c: Box, s: Step)
    requires s.Handle? && s.e == UsbIn && c.core == b.core && c.misc == b.misc && c.ears == b.ears
    requires c.sense == b.sense.(currentLimit := false) && b.core.wait == NotWaiting
    ensures MiscAfter(c, s) == MiscAfter(b, s) && PairAfter(c, s) == PairAfter(b, s) && WaitAfter(c, s) == WaitAfter(b, s)
    ensures LimitAfter(c, s) == LimitAfter(b, s)
  {
    hide BothOnline, BoostFails;
  }

  /** What the handler of the mode makes of it. */
  lemma ModeRest(b: Box, e: Event, shorted: bool, scanOk: bool, d: Box)
    requires Base(b) && b.core.wait == NotWaiting && !TempEvent(e) && (e == UsbIn ==> !b.sense.currentLimit)
    requires d == match b.core.mode
      case Charge => ChargeEvent(b, e, shorted)
      case Comm => CommEvent(b, e, scanOk)
      case LowPower => LowPowerEvent(b, e)
    ensures RestFollows(b, Handle(e, shorted, scanOk), d)
  {
    assert b.core.charge ==> b.core.mode == Charge;
    assert b.core.mode != Comm ==> b.core.pairStatus == 0;
    hide ChargeEvent, CommEvent, LowPowerEvent, Base, TempEvent, RestFollows;
    match b.core.mode
    case Charge => ChargeRest(b, e, shorted, scanOk);
    case Comm => CommFollows(b, e, shorted, scanOk);
    case LowPower => LowPowerFollows(b, e, shorted, scanOk);
  }

  lemma RestSame(b: Box, c: Box, s: Step, d: Box)
    requires RestFollows(c, s, d)
    requires c.core == b.core && c.misc == b.misc && c.sense == b.sense.(currentLimit := c.sense.currentLimit)
    requires MiscAfter(c, s) == MiscAfter(b, s) && PairAfter(c, s) == PairAfter(b, s) && WaitAfter(c, s) == WaitAfter(b, s)
    requires LimitAfter(c, s) == LimitAfter(b, s)
    ensures RestFollows(b, s, d)
  {
    hide MiscAfter, PairAfter, WaitAfter, LimitAfter;
  }

  lemma EventIs(b: Box, e: Event, shorted: bool, scanOk: bool, c: Box)
    requires c == CommonEvent(b, e, shorted) && c.core.wait == NotWaiting
    ensures OnEvent(b, e, shorted, scanOk) == match c.core.mode
      case Charge => ChargeEvent(c, e, shorted)
      case Comm => CommEvent(c, e, scanOk)
      case LowPower => LowPowerEvent(c, e)
  {
  }

  lemma EventRest(b: Box, e: Event, shorted: bool, scanOk: bool)
    requires Base(b) && b.core.wait == NotWaiting
    ensures RestFollows(b, Handle(e, shorted, scanOk), OnEvent(b, e, shorted, scanOk))
  {
    assert b.core.charge ==> b.core.mode == Charge;
    var s := Handle(e, shorted, scanOk);
    hide *;
    if TempEvent(e) {
      TempFollows(b, e, shorted, scanOk);
    } else {
      var c := CommonEvent(b, e, shorted);
      CommonIs(b, e, shorted);
      CommonEventKeeps(b, e, shorted);
      EventIs(b, e, shorted, scanOk, c);
      ModeRest(c, e, shorted, scanOk, OnEvent(b, e, shorted, scanOk));
      if e == UsbIn {
        SameAfter(b, c, s);
        RestSame(b, c, s, OnEvent(b, e, shorted, scanOk));
      }
    }
  }

  // ---------- all steps ----------

  /** The key handler in COMM, and what it comes to. */
  lemma CommKeyRest(b: Box, k: Key)
    requires b.core.pairStatus <= 2
    ensures var pairs := b.core.pairStatus == 1 && (b.misc.pairKey + 1) % 256 >= 10;
      Same(b, CommKey(b, k),
           if k == Long && b.core.pairStatus == 0 then b.misc.(pairKey := 0)
           else if k == Hold && b.core.pairStatus == 1 then
             b.misc.(pairKey := (b.misc.pairKey + 1) % 256, pairSucc := b.misc.pairSucc && !pairs)
           else b.misc,
           if k == Long && b.core.pairStatus == 0 then 1
           else if k == Hold && pairs then 2
           else if k == Up && b.core.pairStatus == 1 then 0
           else b.core.pairStatus,
           b.core.wait, b.sense.currentLimit)
  {
  }

  lemma KeyedIs(b: Box, k: Key)
    requires b.core.mode == Comm && !b.core.charge && b.core.wait == NotWaiting && b.core.pairStatus <= 2
    ensures var s, pairs := Press(k), b.core.pairStatus == 1 && (b.misc.pairKey + 1) % 256 >= 10;
      && MiscAfter(b, s) ==
           (if k == Long && b.core.pairStatus == 0 then b.misc.(autoExit := 0, pairKey := 0)
            else if k == Hold && b.core.pairStatus == 1 then
              b.misc.(autoExit := 0, pairKey := (b.misc.pairKey + 1) % 256, pairSucc := b.misc.pairSucc && !pairs)
            else b.misc.(autoExit := 0))
      && PairAfter(b, s) ==
           (if k == Long && b.core.pairStatus == 0 then 1 else if k == Hold && pairs then 2
            else if k == Up && b.core.pairStatus == 1 then 0 else b.core.pairStatus)
      && WaitAfter(b, s) == NotWaiting && LimitAfter(b, s) == b.sense.currentLimit
  {
  }

  lemma KeyComm(b: Box, k: Key)
    requires b.core.mode == Comm && !b.core.charge && b.core.wait == NotWaiting && b.core.pairStatus <= 2
    ensures RestFollows(b, Press(k), OnKey(b, k))
  {
    var c := SetAutoExit(b, 0);
    assert OnKey(b, k) == CommKey(c, k);
    assert c.misc == b.misc.(autoExit := 0) && c.core == b.core && c.sense == b.sense;
    KeyedIs(b, k);
    CommKeyRest(c, k);
    hide OnKey, CommKey, SetAutoExit, MiscAfter, PairAfter, WaitAfter, LimitAfter;
  }

  lemma KeyClosed(b: Box, k: Key)
    requires b.core.mode != Comm && b.core.wait == NotWaiting && b.core.pairStatus == 0
    ensures RestFollows(b, Press(k), OnKey(b, k))
  {
    SetModeRest(b, Comm);
    hide SetMode;
    if LeavesCharge(b, Press(k)) {
      assert OnKey(b, k) == SetMode(b, Comm);
      KeyIs(b, k);
      hide *;
      Follow(b, Press(k), OnKey(b, k));
    } else {
      assert OnKey(b, k) == b;
      KeyIs(b, k);
      hide OnKey, MiscAfter, PairAfter, WaitAfter, LimitAfter;
    }
  }

  lemma Follow(b: Box, s: Step, c: Box)
    requires Same(b, c, MiscAfter(b, s), PairAfter(b, s), WaitAfter(b, s), LimitAfter(b, s))
    ensures RestFollows(b, s, c)
  {
    hide MiscAfter, PairAfter, WaitAfter, LimitAfter;
  }

  lemma KeyIs(b: Box, k: Key)
    requires b.core.mode != Comm && b.core.wait == NotWaiting && b.core.pairStatus == 0
    ensures var s := Press(k);
      && MiscAfter(b, s) == (if LeavesCharge(b, s) then b.misc.(pairSucc := false, pairKey := 0, autoExit := 0) else b.misc)
      && PairAfter(b, s) == 0 && WaitAfter(b, s) == b.core.wait && LimitAfter(b, s) == b.sense.currentLimit
  {
  }

  lemma KeyRest(b: Box, k: Key)
    requires Base(b) && b.core.wait == NotWaiting
    ensures RestFollows(b, Press(k), OnKey(b, k))
  {
    assert b.core.charge ==> b.core.mode == Charge;
    assert b.core.pairStatus <= 2 && (b.core.mode != Comm ==> b.core.pairStatus == 0);
    hide *;
    if b.core.mode == Comm {
      KeyComm(b, k);
    } else {
      KeyClosed(b, k);
    }
  }

  lemma ResumeRest(b: Box)
    requires Base(b) && b.core.wait != NotWaiting && b.core.hook == HookIdle
    ensures RestFollows(b, Resume, OnResume(b))
  {
    assert b.core.charge && b.core.mode == Charge && b.core.lidCnt == 0;
    hide Base;
    match b.core.wait
    case NotWaiting =>
    case WaitLid => WaitedLid(b);
    case WaitTemp(shorted) => WaitedTemp(b, shorted);
  }

  lemma SwitchedRest(b: Box)
    ensures var c := ForceDone(OutputOn(StopWaiting(b)));
      && Same(b, c, b.misc, b.core.pairStatus, NotWaiting, b.sense.currentLimit)
      && c.ears == (if BothOnline(b) then b.ears.(forceCharge := 0) else b.ears)
      && c.core.shutCnt == b.core.shutCnt && c.core.lidCnt == b.core.lidCnt
  {
  }

  lemma WaitedIs(b: Box)
    requires b.core.wait == WaitLid
    ensures MiscAfter(b, Resume) == b.misc.(powerCheck := QueryCount(b, if BothOnline(b) then 0 else b.ears.forceCharge))
    ensures PairAfter(b, Resume) == b.core.pairStatus && LimitAfter(b, Resume) == b.sense.currentLimit
  {
    hide QueryCount, BothOnline;
  }

  lemma SameQuery(b: Box, c: Box, force: nat)
    requires c.core.shutCnt == b.core.shutCnt && c.core.lidCnt == b.core.lidCnt && c.ears.earFull == b.ears.earFull
    requires c.misc.powerCheck == b.misc.powerCheck
    ensures QueryCount(c, force) == QueryCount(b, force)
  {
  }

  lemma SameThen(b: Box, c: Box, d: Box, count: nat, pairStatus: nat, wait: Wait, currentLimit: bool)
    requires Same(b, c, b.misc, pairStatus, wait, currentLimit)
    requires Same(c, d, c.misc.(powerCheck := count), c.core.pairStatus, c.core.wait, c.sense.currentLimit)
    ensures Same(b, d, b.misc.(powerCheck := count), pairStatus, wait, currentLimit)
  {
  }

  lemma WaitedLid(b: Box)
    requires b.core.wait == WaitLid
    ensures RestFollows(b, Resume, OnResume(b))
  {
    var c := ForceDone(OutputOn(StopWaiting(b)));
    var d := ChargeShut(ChargeSendPower(c));
    assert OnResume(b) == d;
    assert WaitAfter(b, Resume) == NotWaiting;
    SwitchedRest(b);
    assert c.misc.powerCheck == b.misc.powerCheck;
    hide *;
    QueryRest(c);
    SameQuery(b, c, c.ears.forceCharge);
    WaitedIs(b);
    SameThen(b, c, d, QueryCount(c, c.ears.forceCharge), b.core.pairStatus, NotWaiting, b.sense.currentLimit);
    Follow(b, Resume, d);
  }

  lemma WaitedTempIs(b: Box, shorted: bool)
    requires b.core.wait == WaitTemp(shorted)
    ensures MiscAfter(b, Resume) == b.misc.(tempTimer := false) && PairAfter(b, Resume) == b.core.pairStatus
    ensures WaitAfter(b, Resume) == NotWaiting && LimitAfter(b, Resume) == (b.sense.currentLimit || shorted)
  {
  }

  lemma StoppedThen(b: Box, d: Box, misc: Misc, currentLimit: bool)
    requires Same(StopWaiting(b), d, misc, b.core.pairStatus, NotWaiting, currentLimit)
    ensures Same(b, d, misc, b.core.pairStatus, NotWaiting, currentLimit)
  {
  }

  lemma WaitedTemp(b: Box, shorted: bool)
    requires b.core.wait == WaitTemp(shorted)
    ensures RestFollows(b, Resume, OnResume(b))
  {
    var c := StopWaiting(b);
    assert OnResume(b) == TempRestore(c, shorted);
    assert c.misc == b.misc && c.sense == b.sense && c.core.wait == NotWaiting && c.core.pairStatus == b.core.pairStatus;
    hide *;
    RestoreRest(c, shorted);
    StoppedThen(b, OnResume(b), b.misc.(tempTimer := false), b.sense.currentLimit || shorted);
    WaitedTempIs(b, shorted);
    Follow(b, Resume, OnResume(b));
  }

  /** The steps of the other tasks leave the counters alone. */
  lemma OtherIs(b: Box, s: Step)
    requires !s.Handle? && !s.Press? && s != Resume
    ensures PairAfter(b, s) == b.core.pairStatus && WaitAfter(b, s) == b.core.wait
    ensures MiscAfter(b, s) ==
      b.misc.(pairSucc := b.misc.pairSucc || s == Paired,
              tempTimer := if s == TempTimeout then b.sense.usb || b.sense.wireless else b.misc.tempTimer)
  {
  }

  lemma OtherLimit(b: Box, s: Step)
    requires !s.Handle? && !s.Press? && s != Resume
    ensures LimitAfter(b, s) ==
      (b.sense.currentLimit || s == ShortInterrupt || (s == TalkEnd(true) && b.core.charge && !b.sense.tempLimit))
  {
  }

  /** The hooks of the communication thread. */
  lemma HookRest(b: Box)
    ensures Same(b, HookEnter(b), b.misc, b.core.pairStatus, b.core.wait, b.sense.currentLimit)
    ensures Same(b, HookSwitch(b), b.misc, b.core.pairStatus, b.core.wait, b.sense.currentLimit)
  {
  }

  lemma DecideRest(b: Box, shorted: bool)
    ensures Same(b, HookDecide(b, shorted), b.misc, b.core.pairStatus, b.core.wait,
                 b.sense.currentLimit || (shorted && b.core.charge && !b.sense.tempLimit))
  {
  }

  /** The interrupts and timeouts. */
  lemma ShortInterruptRest(b: Box)
    ensures Same(b, OnShortInterrupt(b), b.misc, b.core.pairStatus, b.core.wait, true)
  {
  }

  lemma TimeoutRest(b: Box)
    ensures Same(b, OnTempTimeout(b), b.misc.(tempTimer := b.sense.usb || b.sense.wireless),
                 b.core.pairStatus, b.core.wait, b.sense.currentLimit)
  {
  }

  /** What is heard from the ears. */
  lemma HeardRest(b: Box, l: bool, r: bool)
    ensures Same(b, OnExchange(b, l, r), b.misc, b.core.pairStatus, b.core.wait, b.sense.currentLimit)
  {
    hide EarAnswer, EarNews;
  }

  lemma ToldRest(b: Box, l: nat, r: nat)
    ensures Same(b, Next(b, Powers(l, r)), b.misc, b.core.pairStatus, b.core.wait, b.sense.currentLimit)
    ensures Same(b, Next(b, Paired), b.misc.(pairSucc := true), b.core.pairStatus, b.core.wait, b.sense.currentLimit)
  {
  }

  lemma OtherSteps(b: Box, s: Step)
    ensures s == TalkStart ==> Next(b, s) == HookEnter(b)
    ensures s == TalkSwitch ==> Next(b, s) == HookSwitch(b)
    ensures s.TalkEnd? ==> Next(b, s) == HookDecide(b, s.shorted)
    ensures s == ShortInterrupt ==> Next(b, s) == OnShortInterrupt(b)
    ensures s == TempTimeout ==> Next(b, s) == OnTempTimeout(b)
    ensures s.Exchange? ==> Next(b, s) == OnExchange(b, s.heardL, s.heardR)
  {
  }

  lemma OtherRest(b: Box, s: Step)
    requires !s.Handle? && !s.Press? && s != Resume && !s.Sense? && s != FullDetect
    ensures RestFollows(b, s, Next(b, s))
  {
    hide *;
    OtherIs(b, s);
    OtherLimit(b, s);
    OtherSteps(b, s);
    assert b.misc.(pairSucc := b.misc.pairSucc, tempTimer := b.misc.tempTimer) == b.misc;
    match s {
      case TalkStart => HookRest(b);
      case TalkSwitch => HookRest(b);
      case TalkEnd(shorted) => DecideRest(b, shorted);
      case ShortInterrupt => ShortInterruptRest(b);
      case TempTimeout => TimeoutRest(b);
      case Exchange(l, r) => HeardRest(b, l, r);
      case Powers(l, r) => ToldRest(b, l, r);
      case Paired => ToldRest(b, 0, 0);
    }
    Follow(b, s, Next(b, s));
  }

  lemma DetectKeeps(b: Box)
    ensures var c := OnFullDetect(b); c.core == b.core && c.misc == b.misc && c.sense == b.sense
  {
    hide EarFullCount, BothOnline;
  }

  lemma DetectRest(b: Box)
    ensures RestFollows(b, FullDetect, OnFullDetect(b))
  {
    DetectKeeps(b);
    OtherIs(b, FullDetect);
    OtherLimit(b, FullDetect);
    assert b.misc.(pairSucc := b.misc.pairSucc, tempTimer := b.misc.tempTimer) == b.misc;
    hide OnFullDetect, MiscAfter, PairAfter, WaitAfter, LimitAfter;
  }

  /** MAIN: pairing, counters, timers, who waits, and the flagged short after any step of any task. */
  lemma StepRest(b: Box, s: Step)
    requires Base(b) && Enabled(b, s) && !s.Sense?
    ensures RestFollows(b, s, Next(b, s))
  {
    hide OnEvent, OnKey, OnResume, OnFullDetect, RestFollows, Base;
    match s
    case Handle(e, shorted, scanOk) => EventRest(b, e, shorted, scanOk);
    case Press(k) => KeyRest(b, k);
    case Resume => ResumeRest(b);
    case FullDetect => DetectRest(b);
    case _ => OtherRest(b, s);
  }

  // ---------- COMM over runs ----------

  /** In COMM, a step that neither shows activity nor asks for another mode. */
  predicate Idles(s: Step) {
    !Active(s) && (s.Handle? ==> s.e != LidClosed && s.e != NeedShutdown)
  }

  function HalfSeconds(run: seq<Step>): nat {
    if run == [] then 0 else (if run[0].Handle? && run[0].e == Ms500 then 1 else 0) + HalfSeconds(run[1..])
  }

  lemma IdleMode(b: Box, s: Step)
    requires Base(b) && Enabled(b, s) && b.core.mode == Comm && Idles(s) && b.misc.autoExit + HalfSeconds([s]) <= 121
    ensures Next(b, s).core.mode == Comm
  {
    StepCore(b, s);
    hide Next, Base;
    assert s.Handle? && s.e == Ms500 ==> HalfSeconds([s]) == 1;
    assert ModeAfter(b, s) == Comm;
  }

  lemma IdleCount(b: Box, s: Step)
    requires Base(b) && Enabled(b, s) && b.core.mode == Comm && Idles(s) && b.misc.autoExit + HalfSeconds([s]) <= 121
    ensures Next(b, s).misc.autoExit == b.misc.autoExit + HalfSeconds([s])
  {
    assert b.core.wait == NotWaiting;
    assert HalfSeconds([s]) == if s.Handle? && s.e == Ms500 then 1 else 0;
    if s.Sense? {
      assert Next(b, s).misc == b.misc;
    } else {
      hide Next, Base, RestFollows;
      IdleMode(b, s);
      StepCore(b, s);
      assert ModeAfter(b, s) == Comm;
      assert !Opens(b, s);
      hide ModeAfter, CoreFollows;
      StepRest(b, s);
      ExitFollows(b, s, Next(b, s));
    }
  }

  lemma ExitFollows(b: Box, s: Step, c: Box)
    requires RestFollows(b, s, c)
    ensures c.misc.autoExit == AutoExitAfter(b, s)
  {
    hide PairSuccAfter, OffAfter, TempTimerAfter, PowerCheckAfter, LdoFailAfter, PairKeyAfter, AutoExitAfter;
  }

  lemma IdleStep(b: Box, s: Step)
    requires Base(b) && Enabled(b, s) && b.core.mode == Comm && Idles(s) && b.misc.autoExit + HalfSeconds([s]) <= 121
    ensures var c := Next(b, s);
      Base(c) && c.core.mode == Comm && c.misc.autoExit == b.misc.autoExit + HalfSeconds([s])
  {
    hide *;
    StepKeepsBase(b, s);
    IdleMode(b, s);
    IdleCount(b, s);
  }

  /** MAIN: the lid stays open through 121 half seconds without activity, whatever else happens; the next one leaves COMM. */
  lemma {:induction false} IdleExit(b: Box, run: seq<Step>)
    requires Base(b) && b.core.mode == Comm && CanRun(b, run) && forall i :: 0 <= i < |run| ==> Idles(run[i])
    requires b.misc.autoExit + HalfSeconds(run) <= 121
    ensures var c := After(b, run);
      Base(c) && c.core.mode == Comm && c.misc.autoExit == b.misc.autoExit + HalfSeconds(run)
    decreases |run|
  {
    if run != [] {
      assert HalfSeconds([run[0]]) == if run[0].Handle? && run[0].e == Ms500 then 1 else 0;
      IdleStep(b, run[0]);
      hide Base, Next, Enabled;
      IdleExit(Next(b, run[0]), run[1..]);
    }
  }

  lemma IdleEnds(b: Box, s: Step)
    requires Base(b) && b.core.mode == Comm && b.misc.autoExit == 121 && Handles(b, s, Ms500)
    ensures Next(b, s).core.mode == if b.sense.lowPower then LowPower else Charge
  {
    StepCore(b, s);
    hide Next;
  }
}
