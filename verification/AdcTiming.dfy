/** When the ADC scan starts a conversion: at once for a slot without a period, otherwise once a period and never early. */
module AdcTiming {
  import opened AdcQueue

  /** The time of a slot has come. */
  predicate Ready(slot: Slot, now: nat) {
    slot.period == 0 || slot.due < now
  }

  lemma CollectKeepsTimes(s: Adc)
    requires Sized(s)
    ensures var c := Collect(s);
      && Sized(c) && c.flag == 0 && c.cur == s.cur && c.hw == s.hw && c.nextId == s.nextId && c.busy == s.busy
      && forall i :: 0 <= i <= MAX_CH ==>
        c.queue[i].ch == s.queue[i].ch && c.queue[i].period == s.queue[i].period && c.queue[i].due == s.queue[i].due
  {
  }

  lemma SampleStartsIff(s: Adc, now: nat)
    requires Sized(s) && !s.busy && s.flag == 0
    ensures var t := SampleNext(s, now);
      && Sized(t) && t.cur == NextSlot(s.queue, s.cur + 1)
      && (t.busy <==> Ready(s.queue[t.cur], now))
      && (t.busy ==> t.hw == Conversion(s.nextId, s.queue[t.cur].ch) && t.owed == t.hw && t.flag == 1)
      && (!t.busy ==> t.hw == s.hw && t.flag == 0)
      && t.nextId == (if t.busy then s.nextId + 1 else s.nextId)
      && (forall i :: 0 <= i <= MAX_CH ==> t.queue[i].period == s.queue[i].period)
      && (forall i :: 0 <= i <= MAX_CH ==>
            t.queue[i].due == s.queue[i].due + if t.busy && i == t.cur then s.queue[i].period else 0)
  {
    hide NextSlot;
  }

  /** MAIN: a productive scan selects the next occupied slot and starts a conversion of its channel exactly if the slot is ready. */
  lemma ScanStartsIff(s: Adc, now: nat)
    requires Sized(s) && Productive(s, DoScan(now))
    ensures var t := Scan(s, now);
      && Sized(t) && t.cur == NextSlot(s.queue, s.cur + 1)
      && (t.busy <==> Ready(s.queue[t.cur], now))
      && (t.busy ==> t.hw == Conversion(s.nextId, s.queue[t.cur].ch) && t.owed == t.hw && t.flag == 1)
      && (!t.busy ==> t.hw == s.hw && t.flag == 0)
      && t.nextId == (if t.busy then s.nextId + 1 else s.nextId)
      && (forall i :: 0 <= i <= MAX_CH ==> t.queue[i].period == s.queue[i].period)
      && (forall i :: 0 <= i <= MAX_CH ==>
            t.queue[i].due == s.queue[i].due + if t.busy && i == t.cur then s.queue[i].period else 0)
  {
    CollectKeepsTimes(s);
    SameChannels(s.queue, Collect(s).queue, s.cur + 1);
    assert Scan(s, now) == SampleNext(Collect(s), now);
    hide NextSlot, Collect, SampleNext, Scan;
    SampleStartsIff(Collect(s), now);
  }

  lemma CollectStores(s: Adc)
    requires Sized(s)
    ensures var c := Collect(s);
      && c.vbg == (if s.flag == 2 || (s.flag != 0 && s.queue[s.cur].ch == 15) then s.res else s.vbg)
      && forall i :: 0 <= i <= MAX_CH ==>
        c.queue[i].value == if i == s.cur && s.flag != 0 && s.flag != 2 then s.res else s.queue[i].value
  {
  }

  lemma StartsKeepValues(s: Adc, now: nat)
    requires Sized(s)
    ensures Scan(s, now).vbg == (if ScanActs(s) then Collect(s).vbg else s.vbg)
    ensures forall i :: 0 <= i <= MAX_CH ==> Scan(s, now).queue[i].value == if ScanActs(s) then Collect(s).queue[i].value else s.queue[i].value
  {
    CollectKeepsTimes(s);
    hide NextSlot, Collect;
  }

  /** MAIN: a scan stores a waiting result in the scanned slot, that of the reference also or only as the reference, and nothing else. */
  lemma ScanStores(s: Adc, now: nat)
    requires Sized(s) && ScanActs(s)
    ensures var t := Scan(s, now);
      && t.vbg == (if s.flag == 2 || (s.flag != 0 && s.queue[s.cur].ch == 15) then s.res else s.vbg)
      && forall i :: 0 <= i <= MAX_CH ==>
        t.queue[i].value == if i == s.cur && s.flag != 0 && s.flag != 2 then s.res else s.queue[i].value
  {
    CollectStores(s);
    StartsKeepValues(s, now);
    hide Scan, Collect, ScanActs;
  }

  /** A scan that is asked for it converts the reference, channel 15, instead, and leaves the position alone. */
  lemma ScanAsksReference(s: Adc, now: nat)
    requires Sized(s) && ScanActs(s) && s.changeVbg
    ensures var t := Scan(s, now);
      t.busy && !t.changeVbg && t.hw == Conversion(s.nextId, 15) && t.owed == t.hw && t.flag == 2 && t.cur == s.cur
  {
    hide NextSlot;
  }

  /** Setting a period makes the channel due one period later. */
  lemma PeriodSet(s: Adc, ch: int, period: nat, now: nat)
    requires Sized(s)
    ensures var i := FindChannel(s.queue, ch, 0);
      var t := SetFreq(s, ch, period, now);
      && Sized(t)
      && (forall k :: 0 <= k <= MAX_CH && !(k == i < MAX_CH) ==> t.queue[k] == s.queue[k])
      && (i < MAX_CH ==> t.queue[i] == s.queue[i].(period := t.queue[i].period, due := t.queue[i].due)
                         && t.queue[i].period == period && t.queue[i].due == now + period)
  {
  }

  /** The step starts a conversion for slot `i`. */
  predicate StartsSlot(s: Adc, t: Step, i: nat)
    requires Sized(s) && i < MAX_CH
  {
    Productive(s, t) && NextSlot(s.queue, s.cur + 1) == i && Ready(s.queue[i], t.now)
  }

  /** The times at which a run starts conversions for slot `i`. */
  ghost function Starts(s: Adc, run: seq<Step>, i: nat): seq<nat>
    requires Sized(s) && i < MAX_CH
    decreases |run|
  {
    if run == [] || !Sized(Next(s, run[0])) then []
    else (if StartsSlot(s, run[0], i) then [run[0].now] else []) + Starts(Next(s, run[0]), run[1..], i)
  }

  /** Channels and periods stay as they are. */
  ghost predicate FixedPeriods(run: seq<Step>) {
    forall t :: t in run ==> !t.DoAdd? && !t.DoRemove? && !t.DoFreq?
  }

  lemma StepDue(s: Adc, t: Step, i: nat)
    requires Sized(s) && Enabled(s, t) && !t.DoAdd? && !t.DoRemove? && !t.DoFreq? && i < MAX_CH
    ensures Sized(Next(s, t))
    ensures Next(s, t).queue[i].period == s.queue[i].period
    ensures Next(s, t).queue[i].due == s.queue[i].due + if StartsSlot(s, t, i) then s.queue[i].period else 0
  {
    if t.DoScan? && ScanActs(s) {
      if s.changeVbg {
        hide NextSlot;
      } else {
        ScanStartsIff(s, t.now);
        hide Scan;
      }
    }
  }

  lemma StartsStep(s: Adc, run: seq<Step>, i: nat)
    requires Sized(s) && i < MAX_CH && run != [] && Sized(Next(s, run[0]))
    ensures Starts(s, run, i) == (if StartsSlot(s, run[0], i) then [run[0].now] else []) + Starts(Next(s, run[0]), run[1..], i)
  {
    hide Next, StartsSlot;
  }

  /** MAIN: over any run, start number `k` of a periodic slot comes only after its first due time plus `k` periods. */
  lemma {:induction false} NeverEarly(s: Adc, run: seq<Step>, t: Adc, i: nat)
    requires Sized(s) && Happens(s, run, t) && FixedPeriods(run) && i < MAX_CH && s.queue[i].period > 0
    ensures Sized(t) && t.queue[i].period == s.queue[i].period
    ensures t.queue[i].due == s.queue[i].due + |Starts(s, run, i)| * s.queue[i].period
    ensures forall k :: 0 <= k < |Starts(s, run, i)| ==> Starts(s, run, i)[k] > s.queue[i].due + k * s.queue[i].period
    decreases |run|
  {
    if run != [] {
      var step, d := run[0], Next(s, run[0]);
      StepDue(s, step, i);
      assert Happens(d, run[1..], t) && FixedPeriods(run[1..]);
      StartsStep(s, run, i);
      assert StartsSlot(s, step, i) ==> step.now > s.queue[i].due;
      hide Next, StartsSlot, Starts, Happens;
      NeverEarly(d, run[1..], t, i);
      AddOne(Starts(d, run[1..], i), s.queue[i].due, s.queue[i].period, if step.DoScan? then step.now else 0);
    }
  }

  /** A start at `now` puts the later ones one period further on. */
  lemma AddOne(later: seq<nat>, due: nat, period: nat, now: nat)
    ensures |later| * period + period == |[now] + later| * period
    ensures now > due && (forall k :: 0 <= k < |later| ==> later[k] > due + period + k * period) ==>
      forall k :: 0 <= k < |[now] + later| ==> ([now] + later)[k] > due + k * period
  {
    forall k | 0 <= k < |later|
      ensures (k + 1) * period == k * period + period
    {
    }
    if now > due && (forall k :: 0 <= k < |later| ==> later[k] > due + period + k * period) {
      forall k | 0 <= k < |[now] + later|
        ensures ([now] + later)[k] > due + k * period
      {
        if k > 0 {
          assert ([now] + later)[k] == later[k - 1] && (k - 1 + 1) * period == (k - 1) * period + period;
        }
      }
    }
  }

  /** MAIN: after a period is set at `t0`, start number `k` of its slot, counted from 0, comes after t0 + (k + 1) periods. */
  lemma OncePerPeriod(s: Adc, ch: int, period: nat, t0: nat, run: seq<Step>, t: Adc)
    requires Sized(s) && period > 0 && FindChannel(s.queue, ch, 0) < MAX_CH && FixedPeriods(run)
    requires Sized(SetFreq(s, ch, period, t0)) && Happens(SetFreq(s, ch, period, t0), run, t)
    ensures var starts := Starts(SetFreq(s, ch, period, t0), run, FindChannel(s.queue, ch, 0));
      forall k :: 0 <= k < |starts| ==> starts[k] > t0 + (k + 1) * period
  {
    var i := FindChannel(s.queue, ch, 0);
    var u := SetFreq(s, ch, period, t0);
    PeriodSet(s, ch, period, t0);
    hide SetFreq, Starts, Happens, Sized, FindChannel;
    NeverEarly(u, run, t, i);
    var starts := Starts(u, run, i);
    forall k | 0 <= k < |starts|
      ensures starts[k] > t0 + (k + 1) * period
    {
      assert (k + 1) * period == k * period + period;
    }
  }
}
