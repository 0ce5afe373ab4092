/** The LED engine: per-LED fields changed by the setters and by the timer interrupt, proved against `SoftLed`. */
module LedPanel {
  import opened CInt
  import opened SoftLed

  class Lamp {
    var mode: Mode
    var phase: Phase
    var breTimes: nat
    var upTimes: nat
    var lightTimes: nat
    var downTimes: nat
    var darkTimes: nat
    var stepCnt: nat
    var pCnt: nat
    var curDuty: nat
    var maxDuty: nat
    var flicker: bool
    var flickerCnt: nat
    var idle: bool
    var lit: bool

    function View(): Led
      reads this
    {
      Led(mode, phase, breTimes, upTimes, lightTimes, downTimes, darkTimes, stepCnt, pCnt, curDuty, maxDuty,
          flicker, flickerCnt, idle)
    }

    constructor ()
      ensures View() == SoftLed.Init() && Inv(View())
    {
      mode, phase, breTimes := Off, Up, 0;
      upTimes, lightTimes, downTimes, darkTimes := UP_DEFAULT, 100, DOWN_DEFAULT, 10;
      stepCnt, pCnt, curDuty, maxDuty := 0, 0, 0, PWM_MAX * 40 / 100;
      flicker, flickerCnt, idle, lit := false, 0, false, false;
    }

    method Brighter()
      requires Inv(View())
      modifies this`stepCnt, this`curDuty
      ensures View() == RampUp(old(View()))
    {
      stepCnt := U16(stepCnt + 1);
      if stepCnt >= upTimes {
        stepCnt := 0;
        curDuty := maxDuty;
      } else {
        curDuty := U8(stepCnt * maxDuty / upTimes);
      }
    }

    method Darker()
      requires Inv(View())
      modifies this`stepCnt, this`curDuty
      ensures View() == RampDown(old(View()))
    {
      stepCnt := U16(stepCnt + 1);
      if stepCnt >= downTimes {
        stepCnt := 0;
        curDuty := 0;
      } else {
        curDuty := U8((downTimes - stepCnt) * maxDuty / downTimes);
      }
    }

    method Flicker()
      requires Inv(View())
      modifies this`flicker, this`flickerCnt
      ensures View() == HoldFlicker(old(View()))
    {
      if flickerCnt != 0 {
        flickerCnt := flickerCnt - 1;
        if flickerCnt == 0 {
          flicker := false;
        }
      }
    }

    method BreatheOnce()
      requires Inv(View()) && breTimes > 0
      modifies this
      ensures View() == BreatheStep(old(View())) && lit == old(lit)
    {
      hide Inv;
      stepCnt := U16(stepCnt + 1);
      match phase {
        case Up =>
          if stepCnt >= upTimes {
            stepCnt := 0;
            phase := Light;
          } else {
            curDuty := Fraction(stepCnt, maxDuty, upTimes);
          }
        case Light =>
          curDuty := maxDuty;
          if stepCnt >= lightTimes {
            stepCnt := 0;
            phase := Down;
          }
        case Down =>
          if stepCnt >= downTimes {
            stepCnt := 0;
            phase := Dark;
          } else {
            curDuty := Fraction(downTimes - stepCnt, maxDuty, downTimes);
          }
        case Dark =>
          curDuty := 0;
          if stepCnt >= darkTimes {
            stepCnt := 0;
            phase := Up;
            if breTimes != FOREVER {
              breTimes := breTimes - 1;
            }
          }
      }
    }

    method FlashOnce()
      requires Inv(View()) && breTimes > 0
      modifies this
      ensures View() == FlashStep(old(View())) && lit == old(lit)
    {
      match phase {
        case Up =>
          curDuty := maxDuty;
          stepCnt := U16(stepCnt + 1);
          if stepCnt >= upTimes + lightTimes {
            stepCnt := 0;
            phase := Down;
          }
        case Down =>
          curDuty := 0;
          stepCnt := U16(stepCnt + 1);
          if stepCnt >= downTimes + darkTimes {
            stepCnt := 0;
            phase := Up;
            if breTimes != FOREVER {
              breTimes := breTimes - 1;
            }
          }
        case _ =>
          breTimes := 0;
          curDuty := 0;
      }
    }

    /** `soft_pwm_led_ctrl`. */
    method Ctrl() returns (sleepy: bool)
      requires Inv(View())
      modifies this
      ensures (View(), sleepy) == Control(old(View())) && Inv(View()) && lit == old(lit)
    {
      ControlKeepsInv(View());
      hide BreatheStep, FlashStep, RampUp, RampDown, HoldFlicker;
      sleepy := false;
      match mode {
        case On =>
          if flicker {
            if curDuty > 0 {
              Darker();
            } else {
              Flicker();
            }
          } else if curDuty < maxDuty {
            Brighter();
          }
        case Off =>
          if flicker {
            if curDuty < maxDuty {
              Brighter();
            } else {
              Flicker();
            }
          } else if curDuty > 0 {
            Darker();
          } else {
            sleepy := true;
          }
        case Breathe =>
          if breTimes == 0 {
            sleepy := true;
          } else {
            BreatheOnce();
          }
        case Flash =>
          if breTimes == 0 {
            sleepy := true;
          } else {
            FlashOnce();
          }
      }
    }

    /** This LED's share of the timer interrupt. */
    method OnTimer()
      requires Inv(View())
      modifies this
      ensures (View(), lit) == Tick(old(View())) && Inv(View())
    {
      TickKeepsInv(View());
      hide Control;
      lit := pCnt < curDuty;
      pCnt := pCnt + 1;
      if pCnt >= PWM_MAX {
        pCnt := 0;
        idle := Ctrl();
      }
    }

    /** This LED's share of `chgbox_set_led_stu`. */
    method SetStu(self: bool, on: bool, spFlicker: bool, fade: bool)
      requires Inv(View())
      modifies this
      ensures View() == SetState(old(View()), self, on, spFlicker, fade) && Inv(View())
    {
      hide Matched, SetBreathe, SetAllOff, SetAllOn;
      SettersKeepInv(View(), self, on, spFlicker, fade, Same, false, 0);
      assert maxDuty > 0 && curDuty <= maxDuty;
      hide Inv;
      if self {
        SetSelf(on, spFlicker, fade);
      } else {
        GoDark(fade);
        flicker := false;
        downTimes := 20;
      }
      idle := false;
      breTimes := 0;
    }

    /** The LED chosen by the request. */
    method SetSelf(on: bool, spFlicker: bool, fade: bool)
      requires maxDuty > 0 && curDuty <= maxDuty
      modifies this`mode, this`stepCnt, this`curDuty, this`flicker, this`flickerCnt, this`upTimes, this`downTimes
      ensures View() == SetState(old(View()), true, on, spFlicker, fade).(idle := idle, breTimes := breTimes)
    {
      hide Matched;
      flicker := spFlicker;
      flickerCnt := FLICKER_DEFAULT;
      if on {
        LightUp(fade);
      } else {
        GoDark(fade);
      }
    }

    method LightUp(fade: bool)
      requires maxDuty > 0 && curDuty <= maxDuty
      modifies this`mode, this`stepCnt, this`curDuty, this`flicker, this`upTimes
      ensures mode == On && upTimes == UP_DEFAULT
      ensures stepCnt == if fade then UpFrom(old(View())) else 0
      ensures curDuty == if fade then old(curDuty) else maxDuty
      ensures flicker == (old(flicker) && fade)
    {
      if fade {
        stepCnt := Matched(upTimes, curDuty, maxDuty);
      } else {
        stepCnt := 0;
        curDuty := maxDuty;
        flicker := false;
      }
      mode := On;
      upTimes := UP_DEFAULT;
    }

    method GoDark(fade: bool)
      requires maxDuty > 0 && curDuty <= maxDuty
      modifies this`mode, this`stepCnt, this`curDuty, this`flicker, this`downTimes
      ensures mode == Off && downTimes == DOWN_DEFAULT
      ensures stepCnt == if fade then DownFrom(old(View())) else 0
      ensures curDuty == if fade then old(curDuty) else 0
      ensures flicker == (old(flicker) && fade)
    {
      if fade {
        MatchedSteps(View());
        stepCnt := downTimes - Matched(downTimes, curDuty, maxDuty);
      } else {
        stepCnt := 0;
        curDuty := 0;
        flicker := false;
      }
      mode := Off;
      downTimes := DOWN_DEFAULT;
    }

    /** This LED's share of `chgbox_set_led_bre`. */
    method SetBre(self: bool, speed: Speed, breathe: bool, times: nat)
      requires Inv(View()) && times <= FOREVER
      modifies this
      ensures View() == SetBreathe(old(View()), self, speed, breathe, times) && Inv(View())
    {
      hide Matched, SetState, SetAllOff, SetAllOn;
      SettersKeepInv(View(), self, false, false, false, speed, breathe, times);
      if self {
        mode := if breathe then Breathe else Flash;
        breTimes := times;
        if speed == Fast {
          upTimes, lightTimes, downTimes, darkTimes := 50, 10, 50, 10;
        } else if speed == Slow {
          upTimes, lightTimes, downTimes, darkTimes := 200, 40, 200, 40;
        }
        stepCnt := Matched(upTimes, curDuty, maxDuty);
      } else {
        mode := Off;
        downTimes := 20;
        MatchedSteps(View());
        stepCnt := downTimes - Matched(downTimes, curDuty, maxDuty);
        breTimes := 0;
      }
      idle := false;
    }

    /** This LED's share of `chgbox_set_led_all_off` and `chgbox_set_led_all_on`. */
    method SetAll(on: bool, fade: bool)
      requires Inv(View())
      modifies this
      ensures View() == (if on then SetAllOn(old(View()), fade) else SetAllOff(old(View()), fade)) && Inv(View())
    {
      hide Matched, SetState, SetBreathe;
      SettersKeepInv(View(), false, on, false, fade, Same, false, 0);
      MatchedSteps(View());
      hide Inv;
      if fade {
        stepCnt := if on then Matched(upTimes, curDuty, maxDuty) else downTimes - Matched(downTimes, curDuty, maxDuty);
      } else {
        stepCnt := 0;
        flicker := false;
        curDuty := if on then maxDuty else 0;
      }
      if on {
        mode := On;
        upTimes := UP_DEFAULT;
      } else {
        mode := Off;
        downTimes := DOWN_DEFAULT;
      }
      breTimes := 0;
      idle := false;
    }
  }

  const LED_MAX := 3

  class Panel {
    const lamps: seq<Lamp>
    var active: bool

    ghost predicate Good()
      reads lamps
    {
      && |lamps| == LED_MAX
      && (forall i, j :: 0 <= i < j < LED_MAX ==> lamps[i] != lamps[j])
      && forall i :: 0 <= i < LED_MAX ==> Inv(lamps[i].View())
    }

    constructor ()
      ensures Good() && forall i :: 0 <= i < LED_MAX ==> lamps[i].View() == SoftLed.Init()
    {
      var red := new Lamp();
      var green := new Lamp();
      var blue := new Lamp();
      lamps, active := [red, green, blue], false;
    }

    /** `soft_pwm_led_isr`: the panel may sleep once every LED may. */
    method Isr()
      requires Good()
      modifies this`active, lamps
      ensures Good()
      ensures forall i :: 0 <= i < LED_MAX ==> (lamps[i].View(), lamps[i].lit) == Tick(old(lamps[i].View()))
      ensures active == (old(active) && exists i :: 0 <= i < LED_MAX && !lamps[i].idle)
    {
      hide Control;
      var i, idleCount := 0, 0;
      while i < LED_MAX
        invariant 0 <= i <= LED_MAX && 0 <= idleCount <= i && active == old(active)
        invariant forall k :: 0 <= k < LED_MAX ==> Inv(lamps[k].View())
        invariant forall k :: 0 <= k < i ==> (lamps[k].View(), lamps[k].lit) == Tick(old(lamps[k].View()))
        invariant forall k :: i <= k < LED_MAX ==> lamps[k].View() == old(lamps[k].View())
        invariant idleCount == i <==> forall k :: 0 <= k < i ==> lamps[k].idle
      {
        lamps[i].OnTimer();
        if lamps[i].idle {
          idleCount := idleCount + 1;
        }
        i := i + 1;
      }
      if idleCount == LED_MAX {
        active := false;
      }
    }

    /** `chgbox_set_led_stu`: one LED is set, the others go dark. */
    method SetLedStu(which: nat, on: bool, spFlicker: bool, fade: bool)
      requires Good()
      modifies this`active, lamps
      ensures Good() && active
      ensures forall i :: 0 <= i < LED_MAX ==>
        lamps[i].View() == SetState(old(lamps[i].View()), i == which, on, spFlicker, fade)
    {
      var i := 0;
      while i < LED_MAX
        invariant 0 <= i <= LED_MAX && (i > 0 ==> active)
        invariant forall k :: 0 <= k < LED_MAX ==> Inv(lamps[k].View())
        invariant forall k :: 0 <= k < i ==>
          lamps[k].View() == SetState(old(lamps[k].View()), k == which, on, spFlicker, fade)
        invariant forall k :: i <= k < LED_MAX ==> lamps[k].View() == old(lamps[k].View())
      {
        hide SetState;
        lamps[i].SetStu(i == which, on, spFlicker, fade);
        active := true;
        i := i + 1;
      }
    }
  }
}
