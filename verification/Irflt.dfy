/** The infrared driver objects, proved against `IrCodec`. */
module Irflt {
  import opened CInt
  import opened Bits
  import opened IrCodec

  /** `set_ir_clk`: the first divider that brings one millisecond into the counter's accurate range. */
  method SetIrClk() returns (index: nat, pad: nat)
    ensures index < |TIMER_DIV| && pad == 12000 / TIMER_DIV[index] && 0x30 < pad < 0x7ff
    ensures forall i :: 0 <= i < index ==> !(0x30 < 12000 / TIMER_DIV[i] < 0x7ff)
    ensures pad == PAD
  {
    assert TIMER_DIV[0] == 1 && TIMER_DIV[1] == 4 && TIMER_DIV[2] == 16;
    index, pad := 0, 0;
    while index < |TIMER_DIV|
      invariant index <= 2
      invariant forall i :: 0 <= i < index ==> !(0x30 < 12000 / TIMER_DIV[i] < 0x7ff)
    {
      pad := 12000 / TIMER_DIV[index];
      if pad > 0x30 && pad < 0x7ff {
        return;
      }
      index := index + 1;
    }
  }

  class IrCode {
    var wData: nat
    var wUserCode: nat
    var bState: nat
    var boverflow: nat
    var cmpStart: nat

    function View(): Receiver
      reads this
    {
      Receiver(wData, wUserCode, bState, boverflow, cmpStart)
    }

    constructor ()
      ensures View() == Receiver(0, 0, 0, 0, 0)
    {
      wData, wUserCode, bState, boverflow, cmpStart := 0, 0, 0, 0, 0;
    }

    method TimerIrIsr(counts: nat)
      requires counts < TWO16
      modifies this
      ensures View() == Capture(old(View()), counts)
    {
      var cap := U8(counts / PAD);
      boverflow := 0;
      if cmpStart < 3 {
        return;
      }
      if cap <= 1 {
        wData := wData / 2;
        bState := U8(bState + 1);
      } else if cap == 2 {
        wData := wData / 2;
        wData := wData + 0x8000;
        bState := U8(bState + 1);
      }
      if bState == 16 {
        wUserCode := wData;
      }
      if bState == 33 {
        bState := 1;
      }
    }

    method IrTimeout()
      modifies this`boverflow, this`bState, this`cmpStart
      ensures View() == Timeout(old(View()))
    {
      boverflow := U8(boverflow + 1);
      if boverflow > 56 {
        boverflow := 56;
        bState := 0;
      }
      cmpStart := cmpStart + 1;
      if cmpStart > 3 {
        cmpStart := 3;
      }
    }

    method GetValue() returns (key: nat)
      requires wData < TWO16
      modifies this`bState
      ensures (View(), key) == Value(old(View()))
    {
      key := 0xff;
      if bState != 32 {
        return;
      }
      assert Pow2(8) == 256;
      ComplementSum(wData % 256, wData / 256, 8);
      if wData % 256 + wData / 256 == 0xff {
        key := wData % 256;
      } else {
        bState := 0;
      }
    }
  }

  class IrSender {
    var sendCnt: nat
    var sendVal: nat
    var period: nat
    var running: bool

    function View(): Sender
      reads this
    {
      Sender(sendCnt, sendVal, period, running)
    }

    constructor (v: nat)
      ensures View() == SendStart(v)
    {
      sendVal, sendCnt, period, running := v, 0, 9560, true;
    }

    method Timer5Isr()
      requires sendCnt < 68
      modifies this
      ensures View() == SendIsr(old(View()))
    {
      sendCnt := sendCnt + 1;
      if sendCnt % 2 != 0 {
        return;
      }
      var cnt := sendCnt / 2;
      if cnt == 1 {
        period := 5060;
      } else if cnt == 34 {
        running := false;
        sendCnt := 0;
        return;
      } else if cnt <= 33 && sendVal / Pow2(33 - cnt) % 2 == 1 {
        period := 2240;
      } else {
        period := 1120;
      }
    }
  }
}
