/** The case's battery and wireless voltage measurements. */
module PowerDetect {
  import opened CInt
  import opened TrimmedMean

  const BAT_AVE_COUNTS := 10
  const BAT_CUT_COUNTS := 2
  const AD_OK_COUNTS := 5
  const AD_CUT_COUNTS := 1
  const LOWPOWER_ENTER_VOLTAGE := 3300
  const LOWPOWER_EXIT_VOLTAGE := 3320

  datatype Event = EnterLowPower | ExitLowPower

  datatype Power = Power(volt: nat, low: bool)

  /** On USB power the recorded voltage only rises, otherwise it only falls. */
  function Ratchet(volt: nat, mean: nat, usb: bool): nat {
    if usb then (if mean > volt then mean else volt)
    else if mean < volt then mean else volt
  }

  function Judge(p: Power, mean: nat, usb: bool): (Power, seq<Event>) {
    var volt := Ratchet(p.volt, mean, usb);
    if p.low && volt > LOWPOWER_EXIT_VOLTAGE then (Power(volt, false), [ExitLowPower])
    else if !p.low && volt <= LOWPOWER_ENTER_VOLTAGE then (Power(volt, true), [EnterLowPower])
    else (Power(volt, p.low), [])
  }

  /** One finished measurement. */
  datatype Reading = Reading(mean: nat, usb: bool)

  function Run(p: Power, rs: seq<Reading>): (Power, seq<Event>) {
    if rs == [] then (p, [])
    else
      var before := Run(p, rs[..|rs| - 1]);
      var last := rs[|rs| - 1];
      var after := Judge(before.0, last.mean, last.usb);
      (after.0, before.1 + after.1)
  }

  /** The flag agrees with the voltage outside the hysteresis band. */
  predicate Agrees(p: Power) {
    if p.low then p.volt <= LOWPOWER_EXIT_VOLTAGE else p.volt > LOWPOWER_ENTER_VOLTAGE
  }

  /** The n-th event after starting with flag `low`, when enter and exit alternate. */
  function Expected(low: bool, n: nat): Event {
    if low == (n % 2 == 0) then ExitLowPower else EnterLowPower
  }

  /** MAIN: the flag follows the voltage with hysteresis, and the events strictly alternate. */
  lemma {:induction false} EventsAlternate(p: Power, rs: seq<Reading>)
    ensures var (q, es) := Run(p, rs);
      && (rs != [] || Agrees(p) ==> Agrees(q))
      && (forall i :: 0 <= i < |es| ==> es[i] == Expected(p.low, i))
      && q.low == (p.low == (|es| % 2 == 0))
    decreases |rs|
  {
    if rs != [] {
      EventsAlternate(p, rs[..|rs| - 1]);
    }
  }

  /** MAIN: the flag after a measurement: low up to 3300, not low above 3320, and in between as it was. */
  lemma Hysteresis(p: Power, rs: seq<Reading>)
    requires rs != []
    ensures var q := Run(p, rs).0;
      q.low <==> q.volt <= 3300 || (q.volt <= 3320 && Run(p, rs[..|rs| - 1]).0.low)
  {
  }

  /** On USB power the recorded voltage is the greatest seen. */
  lemma {:induction false} OnUsb(p: Power, rs: seq<Reading>)
    requires forall i :: 0 <= i < |rs| ==> rs[i].usb
    ensures var q := Run(p, rs).0;
      && q.volt >= p.volt && (forall i :: 0 <= i < |rs| ==> q.volt >= rs[i].mean)
      && (q.volt == p.volt || exists i :: 0 <= i < |rs| && q.volt == rs[i].mean)
    decreases |rs|
  {
    if rs != [] {
      var init := rs[..|rs| - 1];
      OnUsb(p, init);
      var before := Run(p, init);
      if before.0.volt != p.volt && before.0.volt >= rs[|rs| - 1].mean {
        var i :| 0 <= i < |init| && before.0.volt == init[i].mean;
        assert rs[i] == init[i];
      }
    }
  }

  /** Away from USB power the recorded voltage is the least seen, and low power is entered at most once and never left. */
  lemma {:induction false} OffUsb(p: Power, rs: seq<Reading>)
    requires Agrees(p) && forall i :: 0 <= i < |rs| ==> !rs[i].usb
    ensures var (q, es) := Run(p, rs);
      && q.volt <= p.volt && (forall i :: 0 <= i < |rs| ==> q.volt <= rs[i].mean)
      && (q.volt == p.volt || exists i :: 0 <= i < |rs| && q.volt == rs[i].mean)
      && es == (if !p.low && q.low then [EnterLowPower] else [])
      && (p.low ==> q.low)
      && (!p.low ==> (q.low <==> q.volt <= LOWPOWER_ENTER_VOLTAGE))
    decreases |rs|
  {
    if rs != [] {
      var init := rs[..|rs| - 1];
      OffUsb(p, init);
      var before := Run(p, init);
      if before.0.volt != p.volt && before.0.volt <= rs[|rs| - 1].mean {
        var i :| 0 <= i < |init| && before.0.volt == init[i].mean;
        assert rs[i] == init[i];
      }
    }
  }

  /** MAIN: two wrong readings in ten cannot raise a false low-power alarm. */
  lemma NoFalseAlarm(p: Power, s: seq<nat>, t: seq<nat>, bad: set<nat>, usb: bool, hi: nat)
    requires |s| == |t| == BAT_AVE_COUNTS && SortOf(s, t) && |bad| <= BAT_CUT_COUNTS
    requires GoodWithin(s, bad, LOWPOWER_ENTER_VOLTAGE + 1, hi) && hi <= 10922
    requires !p.low && p.volt > LOWPOWER_ENTER_VOLTAGE
    ensures Judge(p, Mean(t, BAT_CUT_COUNTS), usb).1 == []
  {
    MeanRobust(s, t, BAT_CUT_COUNTS, bad, LOWPOWER_ENTER_VOLTAGE + 1, hi);
  }

  lemma SumStep(t: seq<nat>, a: nat, b: nat)
    requires a < b <= |t|
    ensures Sum(t, a, b) == Sum(t, a, b - 1) + t[b - 1]
  {
  }

  /** MAIN: the battery's mean is that of the middle six of ten sorted readings, the wireless one of the middle three of five. */
  lemma ShippedMeans(t: seq<nat>)
    requires |t| == BAT_AVE_COUNTS ==> t[2] + t[3] + t[4] + t[5] + t[6] + t[7] < TWO16
    requires |t| == AD_OK_COUNTS ==> t[1] + t[2] + t[3] < TWO16
    ensures |t| == BAT_AVE_COUNTS ==>
      6 * Mean(t, BAT_CUT_COUNTS) <= t[2] + t[3] + t[4] + t[5] + t[6] + t[7] < 6 * (Mean(t, BAT_CUT_COUNTS) + 1)
    ensures |t| == AD_OK_COUNTS ==>
      3 * Mean(t, AD_CUT_COUNTS) <= t[1] + t[2] + t[3] < 3 * (Mean(t, AD_CUT_COUNTS) + 1)
  {
    if |t| == BAT_AVE_COUNTS {
      MiddleSix(t);
    }
    if |t| == AD_OK_COUNTS {
      MiddleThree(t);
    }
    hide Sum;
  }

  lemma MiddleSix(t: seq<nat>)
    requires |t| == 10
    ensures Sum(t, 2, 8) == t[2] + t[3] + t[4] + t[5] + t[6] + t[7]
  {
    SumStep(t, 2, 8);
    SumStep(t, 2, 7);
    SumStep(t, 2, 6);
    SumStep(t, 2, 5);
    SumStep(t, 2, 4);
    SumStep(t, 2, 3);
    assert Sum(t, 2, 2) == 0;
    hide Sum;
  }

  lemma MiddleThree(t: seq<nat>)
    requires |t| == 5
    ensures Sum(t, 1, 4) == t[1] + t[2] + t[3]
  {
    SumStep(t, 1, 4);
    SumStep(t, 1, 3);
    SumStep(t, 1, 2);
    assert Sum(t, 1, 1) == 0;
    hide Sum;
  }

  /** The battery monitor: ten readings, then one judgement, then it stops itself. */
  class BatteryMonitor {
    const tab: array<nat>
    var batCnt: nat
    var volt: nat
    var low: bool
    var timer: bool

    ghost predicate Valid()
      reads this
    {
      tab.Length == BAT_AVE_COUNTS && batCnt < BAT_AVE_COUNTS
    }

    constructor (volt: nat)
      ensures Valid() && batCnt == 0 && timer && fresh(tab)
      ensures this.volt == volt && low == (volt < LOWPOWER_ENTER_VOLTAGE)
    {
      tab := new nat[BAT_AVE_COUNTS](_ => 0);
      batCnt := 0;
      this.volt := volt;
      low := volt < LOWPOWER_ENTER_VOLTAGE;
      timer := true;
    }

    method Apply(mean: nat, usb: bool) returns (events: seq<Event>)
      modifies `volt, `low
      ensures (Power(volt, low), events) == Judge(old(Power(volt, low)), mean, usb)
    {
      events := [];
      if usb {
        if mean > volt {
          volt := mean;
        }
      } else {
        if mean < volt {
          volt := mean;
        }
      }
      if low {
        if volt > LOWPOWER_EXIT_VOLTAGE {
          low := false;
          events := [ExitLowPower];
        }
      } else {
        if volt <= LOWPOWER_ENTER_VOLTAGE {
          low := true;
          events := [EnterLowPower];
        }
      }
    }

    /** `power_detect_func`. */
    method Detect(adc: nat, skip: bool, usb: bool) returns (events: seq<Event>)
      requires Valid()
      modifies this, tab
      ensures Valid()
      ensures skip ==> !timer && batCnt == 0 && tab[..] == old(tab[..])
      ensures !skip ==> batCnt == (old(batCnt) + 1) % BAT_AVE_COUNTS
      ensures !skip && batCnt != 0 ==> tab[..] == old(tab[..])[old(batCnt) := U16(adc * 4)] && timer == old(timer)
      ensures skip || batCnt != 0 ==> volt == old(volt) && low == old(low) && events == []
      ensures !skip && batCnt == 0 ==>
        && !timer
        && SortOf(old(tab[..])[BAT_AVE_COUNTS - 1 := U16(adc * 4)], tab[..])
        && (Power(volt, low), events) == Judge(old(Power(volt, low)), Mean(tab[..], BAT_CUT_COUNTS), usb)
    {
      hide Judge, Mean, SortOf;
      events := [];
      if skip {
        timer := false;
        batCnt := 0;
        return;
      }
      tab[batCnt] := U16(adc * 4);
      batCnt := batCnt + 1;
      if batCnt == BAT_AVE_COUNTS {
        assert tab[..] == old(tab[..])[BAT_AVE_COUNTS - 1 := U16(adc * 4)];
        SortReadings(tab);
        var mean := MeanOfKept(tab, BAT_CUT_COUNTS);
        events := Apply(mean, usb);
        timer := false;
        batCnt := 0;
      }
    }
  }

  /** `wireless_calc_power`: the readings are copied, so the table itself is not reordered. */
  method WirelessCalcPower(table: array<nat>, tmp: array<nat>) returns (mean: nat)
    requires table.Length == tmp.Length == AD_OK_COUNTS && table != tmp
    modifies tmp
    ensures SortOf(table[..], tmp[..]) && mean == Mean(tmp[..], AD_CUT_COUNTS)
  {
    var k := 0;
    while k < AD_OK_COUNTS
      invariant k <= AD_OK_COUNTS && tmp[..k] == table[..k]
    {
      tmp[k] := table[k];
      k := k + 1;
    }
    assert tmp[..] == tmp[..k] == table[..k] == table[..];
    SortReadings(tmp);
    mean := MeanOfKept(tmp, AD_CUT_COUNTS);
  }
}
