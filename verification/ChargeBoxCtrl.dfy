/**
 The charging-case firmware itself: handlers that update the global state field by field, each
 proved to make the step `ChargeBox` prescribes.  `sys_info` and `ear_info` appear as the groups
 of fields the handlers share.
 */
module ChargeBoxCtrl {
  import opened CInt
  import opened ChargeBox
  import opened ChargeBoxHandshake
  import opened ChargeBoxSafety

  /** What a step of any task keeps. */
  ghost predicate Kept(b: Box, s: Step, c: Box) {
    && c == Next(b, s)
    && Base(c)
    && (Inv(b) && NoRace(b, s) ==> Inv(c))
    && forall side: Side :: EarInv(b, side) ==> EarInv(c, side)
  }

  lemma StepKept(b: Box, s: Step)
    requires Base(b) && Enabled(b, s)
    ensures Kept(b, s, Next(b, s))
  {
    hide Base, Next, Enabled, NoRace, EarInv;
    StepKeepsBase(b, s);
    if Inv(b) && NoRace(b, s) {
      StepKeepsInv(b, s);
    }
    forall side: Side | EarInv(b, side)
      ensures EarInv(Next(b, s), side)
    {
      StepKeepsEarInv(b, s, side);
    }
  }

  lemma InitKept(lidOpen: bool, lowPower: bool, usb: bool)
    ensures var b := Init(lidOpen, lowPower, usb); Inv(b) && forall side: Side :: EarInv(b, side)
  {
    hide Init, Inv, EarInv;
    InitInv(lidOpen, lowPower, usb);
    forall side: Side
      ensures EarInv(Init(lidOpen, lowPower, usb), side)
    {
      InitEarInv(lidOpen, lowPower, usb, side);
    }
  }

  class Controller {
    var core: Core
    var sense: Sensed
    var ears: Ears
    var misc: Misc
    ghost var log: Log

    ghost function View(): Box
      reads this
    {
      Box(core, sense, ears, misc, log)
    }

    /** The rest of `charge_box_ctrl_init`, started with everything off. */
    constructor (lidOpen: bool, lowPower: bool, usb: bool)
      ensures View() == Init(lidOpen, lowPower, usb) && Inv(View())
      ensures forall side: Side :: EarInv(View(), side)
    {
      var ear := Ear(0, 0, 0);
      core := Core(Charge, false, 0, 0, 0, false, false, false, HookIdle, NotWaiting);
      sense := Sensed(false, false, usb, lidOpen, false, false, false, lowPower);
      ears := Ears(ear, ear, false, false, false, 0);
      misc := Misc(false, PortsClosed, false, false, 0, 0, 0, 0);
      log := Log([], [], [], []);
      new;
      if lidOpen {
        core := core.(mode := Comm);
        ShutdownDisable();
      } else if lowPower {
        core := core.(mode := LowPower, lidCnt := 0);
        if usb {
          ShutdownDisable();
        } else {
          ShutdownEnable();
        }
      } else {
        misc := misc.(powerCheck := 0);
        ArmLidCnt();
        ears := ears.(forceCharge := FORCE_CHARGE_TIMES);
        ShutdownDisable();
      }
      if usb {
        EventToUser(UsbIn);
      }
      hide Inv, EarInv;
      InitKept(lidOpen, lowPower, usb);
    }

    // ---------- small actions ----------

    method ShutdownEnable()
      modifies this`core
      ensures View() == SetTimer(old(View()), true)
    {
      if !core.shutdownTimer {
        core := core.(shutdownTimer := true);
      }
    }

    method ShutdownDisable()
      modifies this`core
      ensures View() == SetTimer(old(View()), false)
    {
      if core.shutdownTimer {
        core := core.(shutdownTimer := false);
      }
    }

    method SendMessage(m: Message)
      modifies this`log
      ensures View() == Send(old(View()), m)
    {
      log := log.(sent := log.sent + [m], sinceLid := log.sinceLid + [m], sinceShut := log.sinceShut + [m]);
    }

    method EventToUser(e: Event)
      modifies this`log
      ensures View() == Post(old(View()), e)
    {
      log := log.(posted := log.posted + [e]);
    }

    method ArmLidCnt()
      modifies this`core, this`log
      ensures View() == ArmLid(old(View()))
    {
      core := core.(lidCnt := ARMED + CLOSE_LID_MAX);
      log := log.(sinceLid := []);
    }

    method ArmShutCnt()
      modifies this`core, this`log
      ensures View() == ArmShut(old(View()))
    {
      core := core.(shutCnt := ARMED + SHUT_DOWN_MAX);
      log := log.(sinceShut := []);
    }

    method BoostCtrl(on: bool)
      modifies this`core
      ensures core == old(core).(boost := on)
    {
      core := core.(boost := on);
    }

    method PwrCtrl(on: bool)
      modifies this`core
      ensures core == old(core).(pwr := on)
    {
      core := core.(pwr := on);
    }

    method DrivePorts(p: Ports)
      modifies this`misc
      ensures misc == old(misc).(ports := p)
    {
      misc := misc.(ports := p);
    }

    method StartOutput()
      modifies this`core, this`misc
      ensures View() == OutputOn(old(View()))
    {
      BoostCtrl(true);
      DrivePorts(PortsShut);
      PwrCtrl(true);
    }

    method Sleep()
      modifies this`ears, this`log
      ensures View() == GoToSleep(old(View()))
    {
      ears := ears.(forceCharge := 0);
      ears := ears.(earFull := true);
      EventToUser(EarFull);
    }

    method CheckOutputShort(shorted: bool) returns (told: bool)
      modifies this`sense, this`log
      ensures View() == CheckShort(old(View()), shorted)
      ensures told == (!old(sense).currentLimit && shorted)
    {
      if sense.currentLimit {
        return false;
      }
      if shorted {
        sense := sense.(currentLimit := true);
        EventToUser(EnterCurrent);
        return true;
      }
      return false;
    }

    method SetOutputShort()
      requires Base(View())
      modifies this`core, this`sense, this`log
      ensures Kept(old(View()), ShortInterrupt, View())
    {
      StepKept(View(), ShortInterrupt);
      if sense.currentLimit {
        return;
      }
      BoostCtrl(false);
      PwrCtrl(false);
      sense := sense.(currentLimit := true);
      EventToUser(EnterCurrent);
    }

    // ---------- modes ----------

    method LeaveMode()
      modifies this`core, this`misc
      ensures View() == Leave(old(View()))
    {
      match core.mode {
        case Comm =>
          ShutdownEnable();
          if core.pairStatus != 0 {
            core := core.(pairStatus := 0);
          }
        case Charge =>
          core := core.(lidCnt := 0);
          core := core.(shutCnt := 0);
          core := core.(charge := false);
          BoostCtrl(false);
          PwrCtrl(false);
          DrivePorts(PortsOpen);
          ShutdownEnable();
        case LowPower =>
          core := core.(shutCnt := 0);
          core := core.(lidCnt := 0);
      }
    }

    method RestartCharge()
      modifies this`core, this`misc, this`ears, this`log
      ensures View() == BeginCharge(old(View()))
    {
      misc := misc.(powerCheck := 0);
      core := core.(shutCnt := 0);
      ArmLidCnt();
      core := core.(charge := false);
      ears := ears.(leftFull := false, rightFull := false);
      ears := ears.(earFull := false);
      ears := ears.(forceCharge := FORCE_CHARGE_TIMES);
      ShutdownDisable();
    }

    method EnterMode(m: Mode)
      modifies this`core, this`misc, this`ears, this`log
      ensures View() == Enter(old(View()), m)
    {
      core := core.(mode := m);
      match m {
        case Comm =>
          ShutdownDisable();
          core := core.(shutCnt := 0);
          core := core.(pairStatus := 0);
          misc := misc.(pairSucc := false);
          ears := ears.(leftFull := false, rightFull := false);
          ears := ears.(earFull := false);
          misc := misc.(pairKey := 0);
          misc := misc.(autoExit := 0);
        case Charge =>
          RestartCharge();
        case LowPower =>
          core := core.(shutCnt := 0);
          core := core.(lidCnt := 0);
          if sense.usb {
            ShutdownDisable();
          } else {
            ShutdownEnable();
          }
          if !ears.earFull {
            ArmLidCnt();
          }
      }
    }

    method SetNewStatus(m: Mode)
      modifies this
      ensures View() == SetMode(old(View()), m)
    {
      if m == core.mode {
        return;
      }
      LeaveMode();
      EnterMode(m);
    }

    // ---------- CHARGE ----------

    method DropForceIfOnline()
      modifies this`ears
      ensures View() == ForceDone(old(View()))
    {
      if ears.left.online != 0 && ears.right.online != 0 {
        ears := ears.(forceCharge := 0);
      }
    }

    method LidCloseDeal(shorted: bool)
      modifies this
      ensures View() == ChargeLid(old(View()), shorted)
    {
      if core.lidCnt >= ARMED {
        if core.lidCnt > ARMED {
          core := core.(lidCnt := core.lidCnt - 1);
          SendMessage(CloseLid);
        } else {
          core := core.(lidCnt := 0);
          misc := misc.(powerCheck := 0);
          var told := CheckOutputShort(shorted);
          if !sense.currentLimit {
            core := core.(charge := true);
            if sense.tempLimit {
              EventToUser(EnterTemp);
            } else if core.hook != HookIdle {
              core := core.(wait := WaitLid);
              return;
            } else {
              StartOutput();
            }
            DropForceIfOnline();
          } else if !told {
            Sleep();
          }
        }
      }
    }

    method SendPowerDeal()
      modifies this`misc, this`log
      ensures View() == ChargeSendPower(old(View()))
    {
      if core.shutCnt != 0 || core.lidCnt != 0 || ears.earFull || ears.forceCharge != 0 {
        return;
      }
      misc := misc.(powerCheck := misc.powerCheck + 1);
      if misc.powerCheck > 25 {
        misc := misc.(powerCheck := 0);
        SendMessage(PowerClose);
      }
    }

    method ShutDownDeal()
      modifies this`core, this`misc, this`log
      ensures View() == ChargeShut(old(View()))
    {
      if core.shutCnt >= ARMED {
        if core.shutCnt > ARMED {
          core := core.(shutCnt := core.shutCnt - 1);
          SendMessage(Shutdown);
        } else {
          core := core.(shutCnt := 0);
          DrivePorts(PortsShut);
        }
      }
    }

    method CheckEnableAutoShutdown()
      modifies this`core
      ensures View() == AutoShutdownCheck(old(View()))
    {
      if !sense.usb && !sense.wireless {
        if ears.earFull {
          ShutdownEnable();
        }
      } else if sense.usb {
        if sense.localFull && ears.earFull {
          ShutdownEnable();
        }
      }
    }

    method DealHalfSecond()
      modifies this
      ensures View() == HalfSecond(old(View()))
    {
      if !sense.usb && !sense.wireless {
        if !sense.ldo {
          if misc.ldoFail < LDO_NOT_SUCC_TIMES {
            misc := misc.(ldoFail := misc.ldoFail + 1);
            if misc.ldoFail == LDO_NOT_SUCC_TIMES {
              if ears.forceCharge != 0 || sense.tempLimit {
                Sleep();
              } else {
                ShutdownEnable();
              }
            }
          }
        } else {
          misc := misc.(ldoFail := 0);
        }
      }
      if ears.forceCharge != 0 {
        ears := ears.(forceCharge := ears.forceCharge - 1);
      }
      DropForceIfOnline();
    }

    method ChargeHandler(e: Event, shorted: bool)
      modifies this
      ensures View() == ChargeEvent(old(View()), e, shorted)
    {
      match e {
        case Ms200 =>
          LidCloseDeal(shorted);
          if core.wait == NotWaiting {
            SendPowerDeal();
            ShutDownDeal();
          }
        case Ms500 => DealHalfSecond();
        case WirelessOn => ShutdownDisable();
        case WirelessOff => CheckEnableAutoShutdown();
        case UsbIn =>
          ShutdownDisable();
          if sense.lidOpen {
            SetNewStatus(Comm);
          }
        case UsbOut =>
          CheckEnableAutoShutdown();
          if sense.lidOpen {
            SetNewStatus(Comm);
          }
        case LidOpened => SetNewStatus(Comm);
        case EnterLowPower => SetNewStatus(LowPower);
        case NeedShutdown => SetNewStatus(LowPower);
        case EarFull =>
          PwrCtrl(false);
          DrivePorts(PortsOpen);
          BoostCtrl(false);
          ArmShutCnt();
          core := core.(lidCnt := 0);
          core := core.(charge := false);
          CheckEnableAutoShutdown();
        case LocalFull => CheckEnableAutoShutdown();
        case EnterCurrent =>
          PwrCtrl(false);
          BoostCtrl(false);
          Sleep();
        case ExitCurrent => RestartCharge();
        case _ =>
      }
    }

    // ---------- COMM ----------

    method CloseMode()
      modifies this
      ensures View() == Closed(old(View()))
    {
      if sense.lowPower {
        SetNewStatus(LowPower);
      } else {
        SetNewStatus(Charge);
      }
    }

    method PairDeal()
      modifies this`core, this`log
      ensures View() == PairConnecting(old(View()))
    {
      if core.pairStatus == 2 {
        if misc.pairSucc {
          core := core.(pairStatus := 0);
        } else {
          SendMessage(Pair);
        }
      }
    }

    method AutoExitDeal()
      modifies this
      ensures View() == AutoExit(old(View()))
    {
      var was := misc.autoExit;
      misc := misc.(autoExit := U8(misc.autoExit + 1));
      if was > COMM_LIFE_MAX {
        CloseMode();
      }
    }

    method CommHandler(e: Event, scanOk: bool)
      modifies this
      ensures View() == CommEvent(old(View()), e, scanOk)
    {
      match e {
        case Ms200 =>
          if scanOk {
            SendMessage(PowerOpen);
          }
        case Ms500 =>
          PairDeal();
          AutoExitDeal();
        case UsbIn =>
          SendMessage(PowerOpen);
          misc := misc.(autoExit := 0);
        case UsbOut =>
          SendMessage(PowerOpen);
          misc := misc.(autoExit := 0);
        case LidClosed => CloseMode();
        case NeedShutdown => SetNewStatus(LowPower);
        case EarOnline(_) => misc := misc.(autoExit := 0);
        case EarOffline(_) => misc := misc.(autoExit := 0);
        case _ =>
      }
    }

    // ---------- LOWPOWER ----------

    method LowPowerHandler(e: Event)
      modifies this
      ensures View() == LowPowerEvent(old(View()), e)
    {
      match e {
        case Ms200 =>
          LowPowerLidDeal();
          LowPowerShutDeal();
        case WirelessOn => ShutdownDisable();
        case WirelessOff => ShutdownEnable();
        case UsbIn => ShutdownDisable();
        case UsbOut =>
          if !sense.wireless {
            ShutdownEnable();
          }
        case LidOpened => SetNewStatus(Comm);
        case NeedShutdown =>
          if core.lidCnt == 0 && core.shutCnt != 0 {
            misc := misc.(off := true);
          }
        case ExitLowPower =>
          if sense.lidOpen {
            SetNewStatus(Comm);
          } else {
            SetNewStatus(Charge);
          }
        case _ =>
      }
    }

    method LowPowerLidDeal()
      modifies this`core, this`log
      ensures View() == LowPowerLid(old(View()))
    {
      if core.lidCnt >= ARMED {
        if core.lidCnt > ARMED {
          core := core.(lidCnt := core.lidCnt - 1);
          SendMessage(CloseLid);
        } else {
          core := core.(lidCnt := 0);
          ArmShutCnt();
        }
      }
    }

    method LowPowerShutDeal()
      modifies this`core, this`misc, this`log
      ensures View() == LowPowerShut(old(View()))
    {
      if core.shutCnt >= ARMED {
        if core.shutCnt > ARMED {
          core := core.(shutCnt := core.shutCnt - 1);
          SendMessage(Shutdown);
        } else {
          core := core.(charge := false);
          core := core.(shutCnt := 0);
          DrivePorts(PortsShut);
        }
      }
    }

    // ---------- dispatch ----------

    method RestoreTemp(shorted: bool)
      modifies this
      ensures View() == TempRestore(old(View()), shorted)
    {
      var told := CheckOutputShort(shorted);
      if sense.currentLimit {
        StartOutput();
      } else if !told {
        Sleep();
      }
      if misc.tempTimer {
        misc := misc.(tempTimer := false);
      }
    }

    method CommonHandler(e: Event, shorted: bool)
      modifies this
      ensures View() == CommonEvent(old(View()), e, shorted)
    {
      match e {
        case EnterTemp =>
          if core.charge {
            PwrCtrl(false);
            DrivePorts(PortsOpen);
            misc := misc.(tempTimer := true);
          }
        case ExitTemp =>
          if core.charge {
            if core.hook != HookIdle {
              core := core.(wait := WaitTemp(shorted));
            } else {
              RestoreTemp(shorted);
            }
          }
        case UsbIn =>
          if sense.currentLimit {
            sense := sense.(currentLimit := false);
            EventToUser(ExitCurrent);
          }
        case _ =>
      }
    }

    method EventHandler(e: Event, shorted: bool, scanOk: bool)
      requires Base(View()) && core.wait == NotWaiting
      modifies this
      ensures Kept(old(View()), Handle(e, shorted, scanOk), View())
    {
      StepKept(View(), Handle(e, shorted, scanOk));
      CommonHandler(e, shorted);
      if core.wait == NotWaiting {
        match core.mode {
          case Charge => ChargeHandler(e, shorted);
          case Comm => CommHandler(e, scanOk);
          case LowPower => LowPowerHandler(e);
        }
      }
    }

    /** The main task gets the mutex it waited for. */
    method ResumeHandler()
      requires Base(View()) && core.wait != NotWaiting && core.hook == HookIdle
      modifies this
      ensures Kept(old(View()), Resume, View())
    {
      StepKept(View(), Resume);
      match core.wait {
        case NotWaiting =>
        case WaitLid =>
          core := core.(wait := NotWaiting);
          StartOutput();
          DropForceIfOnline();
          SendPowerDeal();
          ShutDownDeal();
        case WaitTemp(shorted) =>
          core := core.(wait := NotWaiting);
          RestoreTemp(shorted);
      }
    }

    method KeyHandler(k: Key)
      requires Base(View()) && core.wait == NotWaiting
      modifies this
      ensures Kept(old(View()), Press(k), View())
    {
      StepKept(View(), Press(k));
      match core.mode {
        case Charge =>
          if k == Click && sense.lidOpen {
            SetNewStatus(Comm);
          }
        case Comm =>
          misc := misc.(autoExit := 0);
          match k {
            case Long =>
              if core.pairStatus == 0 {
                core := core.(pairStatus := 1);
                misc := misc.(pairKey := 0);
              }
            case Hold =>
              if core.pairStatus == 1 {
                misc := misc.(pairKey := U8(misc.pairKey + 1));
                if misc.pairKey >= KEY_PAIR_CNT {
                  core := core.(pairStatus := 2);
                  misc := misc.(pairSucc := false);
                }
              }
            case Up =>
              if core.pairStatus != 2 {
                core := core.(pairStatus := 0);
              }
            case _ =>
          }
        case LowPower =>
      }
    }

    // ---------- timers and the communication thread ----------

    method EarFullDet()
      requires Base(View())
      modifies this`ears, this`log
      ensures Kept(old(View()), FullDetect, View())
    {
      StepKept(View(), FullDetect);
      if core.mode != Charge {
        return;
      }
      var (l, lf) := EarFullCount(ears.left, ears.leftFull);
      ears := ears.(left := l, leftFull := lf);
      var (r, rf) := EarFullCount(ears.right, ears.rightFull);
      ears := ears.(right := r, rightFull := rf);
      if !ears.earFull {
        if (rf && lf) || (lf && r.online == 0) || (rf && l.online == 0) {
          if ears.forceCharge == 0 {
            ears := ears.(earFull := true);
            EventToUser(EarFull);
          }
        }
      } else if (!lf && l.online != 0) || (!rf && r.online != 0) {
        ears := ears.(earFull := false);
      }
      if l.online == 0 && r.online == 0 && ears.forceCharge == 0 {
        ears := ears.(earFull := true);
        EventToUser(EarFull);
      }
    }

    method TempProtectTimeout()
      requires Base(View()) && misc.tempTimer
      modifies this`core, this`misc
      ensures Kept(old(View()), TempTimeout, View())
    {
      StepKept(View(), TempTimeout);
      misc := misc.(tempTimer := false);
      if sense.usb || sense.wireless {
        misc := misc.(tempTimer := true);
      } else {
        BoostCtrl(false);
      }
    }

    method EnterHook()
      requires Base(View()) && core.hook == HookIdle
      modifies this`core, this`misc
      ensures Kept(old(View()), TalkStart, View())
    {
      StepKept(View(), TalkStart);
      if core.charge {
        PwrCtrl(false);
      }
      DrivePorts(PortsOpen);
      core := core.(hook := HookTalking);
    }

    /** `exit_hook` up to its last test; if that lets it, `ExitHookSwitch` follows, and other tasks may run before it. */
    method ExitHookTest(shorted: bool)
      requires Base(View()) && core.hook == HookTalking
      modifies this
      ensures Kept(old(View()), TalkEnd(shorted), View())
    {
      StepKept(View(), TalkEnd(shorted));
      if core.charge && !sense.tempLimit {
        var told := CheckOutputShort(shorted);
        DrivePorts(PortsShut);
        if !sense.currentLimit {
          core := core.(hook := HookSwitching);
          return;
        }
      } else {
        DrivePorts(PortsClosed);
      }
      core := core.(hook := HookIdle);
    }

    /** The rest of `exit_hook`: the switch itself, whatever has happened since the test. */
    method ExitHookSwitch()
      requires Base(View()) && core.hook == HookSwitching
      modifies this`core
      ensures Kept(old(View()), TalkSwitch, View()) && core.pwr
    {
      StepKept(View(), TalkSwitch);
      PwrCtrl(true);
      core := core.(hook := HookIdle);
    }

    /** One ear's answer: the miss counter and its announcements. */
    method HearLeft(heard: bool)
      modifies this`ears, this`log
      ensures ears == old(ears).(left := EarAnswer(old(ears).left, heard))
      ensures log == old(log).(posted := old(log).posted + EarNews(old(ears).left, heard, Left))
    {
      if heard {
        if ears.left.online == 0 {
          EventToUser(EarOnline(Left));
        }
        ears := ears.(left := ears.left.(online := EAR_OFFLINE_MAX));
      } else if ears.left.online != 0 {
        ears := ears.(left := ears.left.(online := ears.left.online - 1));
        if ears.left.online == 0 {
          ears := ears.(left := ears.left.(power := 0xff));
          EventToUser(EarOffline(Left));
        }
      }
    }

    method HearRight(heard: bool)
      modifies this`ears, this`log
      ensures ears == old(ears).(right := EarAnswer(old(ears).right, heard))
      ensures log == old(log).(posted := old(log).posted + EarNews(old(ears).right, heard, Right))
    {
      if heard {
        if ears.right.online == 0 {
          EventToUser(EarOnline(Right));
        }
        ears := ears.(right := ears.right.(online := EAR_OFFLINE_MAX));
      } else if ears.right.online != 0 {
        ears := ears.(right := ears.right.(online := ears.right.online - 1));
        if ears.right.online == 0 {
          ears := ears.(right := ears.right.(power := 0xff));
          EventToUser(EarOffline(Right));
        }
      }
    }

    /** `app_chargebox_api_check_online`: with both ears off line the line is reset as well. */
    method CheckOnline(heardL: bool, heardR: bool) returns (reset: bool)
      requires Base(View())
      modifies this`ears, this`log
      ensures Kept(old(View()), Exchange(heardL, heardR), View())
      ensures reset <==> ears.left.online == 0 && ears.right.online == 0
    {
      hide EarAnswer, EarNews;
      StepKept(View(), Exchange(heardL, heardR));
      hide Kept;
      HearLeft(heardL);
      HearRight(heardR);
      reset := ears.left.online == 0 && ears.right.online == 0;
    }
  }

  /** `charge_box_ctrl_init`: without a working charge chip the case goes to soft-off instead, and no controller runs. */
  method ControlInit(initOk: bool, lidOpen: bool, lowPower: bool, usb: bool) returns (c: Controller?)
    ensures c == null <==> !initOk
    ensures c != null ==> fresh(c) && c.View() == Init(lidOpen, lowPower, usb) && Inv(c.View())
    ensures c != null ==> forall side: Side :: EarInv(c.View(), side)
  {
    if !initOk {
      return null;
    }
    hide Init, Inv, EarInv;
    c := new Controller(lidOpen, lowPower, usb);
  }
}
