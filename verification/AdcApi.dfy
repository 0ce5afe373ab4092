/** The ADC driver over its slot array, proved against `AdcQueue`. */
module AdcApi {
  import opened AdcQueue

  lemma StepKept(s: Adc, t: Step)
    requires Sized(s) && Enabled(s, t)
    ensures Inv(s) && Disciplined(s, t) ==> Inv(Next(s, t))
  {
    hide Inv, Next;
    if Inv(s) && Disciplined(s, t) {
      StepKeepsInv(s, t);
    }
  }

  class AdcDriver {
    const queue: array<Slot>
    var cur: nat
    var res: Reading
    var saved: Reading
    var flag: nat
    var changeVbg: bool
    var vbg: Reading
    var busy: bool
    var hw: Conversion
    var nextId: nat
    ghost var owed: Conversion
    ghost var borrowed: bool

    ghost function View(): Adc
      reads this, queue
    {
      Adc(queue[..], cur, res, saved, flag, changeVbg, vbg, busy, hw, nextId, owed, borrowed)
    }

    constructor ()
      ensures View() == Empty() && Inv(View()) && fresh(queue)
    {
      var none := Reading(0, Unconverted);
      queue := new Slot[MAX_CH + 1](_ => Slot(NO_CH, none, 0, 0));
      cur, flag, changeVbg, busy, nextId := 0, 0, false, false, 0;
      res, saved, vbg := none, none, none;
      hw, owed, borrowed := Unconverted, Unconverted, false;
      new;
      assert queue[..] == Empty().queue;
    }

    method AddSampleCh(ch: int) returns (i: nat)
      requires queue.Length == MAX_CH + 1
      modifies queue
      ensures i == FindSlot(old(queue[..]), ch, 0)
      ensures View() == AddChannel(old(View()), ch)
    {
      i := 0;
      while i < MAX_CH
        invariant i <= MAX_CH && queue[..] == old(queue[..])
        invariant FindSlot(queue[..], ch, 0) == FindSlot(queue[..], ch, i)
      {
        if queue[i].ch == ch {
          return;
        } else if queue[i].ch == NO_CH {
          queue[i] := Slot(ch, Reading(1, Unconverted), 0, 0);
          return;
        }
        i := i + 1;
      }
    }

    method RemoveSampleCh(ch: int) returns (i: nat)
      requires queue.Length == MAX_CH + 1
      modifies queue
      ensures i == FindChannel(old(queue[..]), ch, 0)
      ensures View() == RemoveChannel(old(View()), ch)
    {
      i := 0;
      while i < MAX_CH
        invariant i <= MAX_CH && queue[..] == old(queue[..])
        invariant FindChannel(queue[..], ch, 0) == FindChannel(queue[..], ch, i)
      {
        if queue[i].ch == ch {
          queue[i] := queue[i].(ch := NO_CH);
          return;
        }
        i := i + 1;
      }
    }

    /** `adc_set_sample_freq`, with the period in ticks. */
    method SetSampleFreq(ch: int, period: nat, now: nat) returns (i: nat)
      requires Sized(View())
      modifies queue
      ensures i == FindChannel(old(queue[..]), ch, 0)
      ensures View() == SetFreq(old(View()), ch, period, now) && (old(Inv(View())) ==> Inv(View()))
    {
      StepKept(View(), DoFreq(ch, period, now));
      i := 0;
      while i < MAX_CH
        invariant i <= MAX_CH && queue[..] == old(queue[..])
        invariant FindChannel(queue[..], ch, 0) == FindChannel(queue[..], ch, i)
      {
        if queue[i].ch == ch {
          queue[i] := queue[i].(period := period, due := period + now);
          return;
        }
        i := i + 1;
      }
    }

    method GetNextCh(from: nat) returns (next: nat)
      requires queue.Length == MAX_CH + 1 && from < MAX_CH
      ensures next == NextSlot(queue[..], from + 1)
    {
      next := from + 1;
      while next < MAX_CH
        invariant from < next <= MAX_CH
        invariant NextSlot(queue[..], from + 1) == NextSlot(queue[..], next)
      {
        if queue[next].ch != NO_CH {
          return;
        }
        next := next + 1;
      }
      next := 0;
    }

    /** `adc_sample`: starts a conversion and returns the result register it replaces. */
    method Sample(ch: int) returns (before: Reading)
      modifies this`res, this`busy, this`hw, this`nextId
      ensures before == old(res) && View() == StartConversion(old(View()), ch)
    {
      before := res;
      hw := Conversion(nextId, ch);
      res := Reading(PENDING, hw);
      busy := true;
      nextId := nextId + 1;
    }

    method CollectResult()
      requires Sized(View())
      modifies this`vbg, this`flag, queue
      ensures View() == Collect(old(View()))
    {
      if flag != 0 {
        if flag == 2 {
          vbg := res;
        } else {
          queue[cur] := queue[cur].(value := res);
          if queue[cur].ch == CH_LDOREF {
            vbg := res;
          }
        }
        flag := 0;
      }
    }

    method SampleNextSlot(now: nat)
      requires Sized(View())
      modifies this, queue
      ensures View() == SampleNext(old(View()), now)
    {
      var next := GetNextCh(cur);
      if queue[next].period != 0 {
        if queue[next].due < now {
          var before := Sample(queue[next].ch);
          flag, owed := 1, hw;
          queue[next] := queue[next].(due := queue[next].due + queue[next].period);
        }
      } else {
        var before := Sample(queue[next].ch);
        flag, owed := 1, hw;
      }
      cur := next;
    }

    method AdcScan(now: nat)
      requires Sized(View())
      modifies this, queue
      ensures View() == Scan(old(View()), now) && (old(Inv(View())) ==> Inv(View()))
    {
      StepKept(View(), DoScan(now));
      if queue[MAX_CH].ch != NO_CH {
        return;
      }
      if busy {
        return;
      }
      CollectResult();
      if changeVbg {
        changeVbg := false;
        var before := Sample(CH_LDOREF);
        flag, owed := 2, hw;
        return;
      }
      SampleNextSlot(now);
    }

    method AdcIsr(raw: nat)
      requires Sized(View()) && busy && raw < PENDING
      modifies this`res, this`busy
      ensures View() == Isr(old(View()), raw) && (old(Inv(View())) ==> Inv(View()))
    {
      StepKept(View(), DoIsr(raw));
      res := Reading(raw, hw);
      busy := false;
    }

    method EnterOccupyMode(ch: int)
      requires Sized(View())
      modifies this, queue
      ensures View() == EnterOccupy(old(View()), ch)
      ensures old(Inv(View())) && Disciplined(old(View()), DoEnter(ch)) ==> Inv(View())
    {
      StepKept(View(), DoEnter(ch));
      if busy {
        return;
      }
      queue[MAX_CH] := queue[MAX_CH].(ch := ch);
      saved := Sample(ch);
      borrowed := true;
    }

    /** `adc_occupy_run`, called once the interrupt has ended its busy-wait. */
    method RunOccupy() returns (r: nat)
      requires Sized(View()) && (Occupied(View()) ==> ResultThere(View()))
      modifies this, queue
      ensures View() == OccupyRun(old(View())) && (old(Inv(View())) ==> Inv(View()))
      ensures r == if Occupied(old(View())) then OccupyResult(old(View())).value else 0
    {
      StepKept(View(), DoRun);
      if queue[MAX_CH].ch != NO_CH {
        if res.value == 0 {
          res := res.(value := res.value + 1);
        }
        queue[MAX_CH] := queue[MAX_CH].(value := res);
        res := saved;
        borrowed := false;
        return queue[MAX_CH].value.value;
      }
      return 0;
    }

    method ExitOccupyMode()
      requires Sized(View())
      modifies this`borrowed, queue
      ensures View() == ExitOccupy(old(View()))
      ensures old(Inv(View())) && Disciplined(old(View()), DoExit) ==> Inv(View())
    {
      StepKept(View(), DoExit);
      queue[MAX_CH] := queue[MAX_CH].(ch := NO_CH);
      borrowed := false;
    }
  }
}
