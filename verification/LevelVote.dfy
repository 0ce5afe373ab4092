/** The debouncer of the case's USB and lid sensors: levels are counted, not required in a row. */
module LevelVote {

  /** Samples needed to go online and offline. */
  datatype Times = Times(online: nat, offline: nat)

  const USB := Times(10, 25)
  const HALL := Times(5, 15)

  datatype Event = CameOnline | WentOffline

  datatype Sensor = Sensor(inCnt: nat, outCnt: nat, timer: bool, online: bool)

  function Decide(s: Sensor, level: bool): (Sensor, seq<Event>) {
    (Sensor(0, 0, false, level), if s.online == level then [] else [if level then CameOnline else WentOffline])
  }

  /** One timer tick with the line at `level`. */
  function Tick(t: Times, s: Sensor, level: bool): (Sensor, seq<Event>) {
    if level then
      if s.inCnt + 1 >= t.online then Decide(s, true) else (s.(inCnt := s.inCnt + 1), [])
    else
      if s.outCnt + 1 >= t.offline then Decide(s, false) else (s.(outCnt := s.outCnt + 1), [])
  }

  datatype Step = Wake | Sample(level: bool)

  /** A wake-up arms the timer if it is not running; only an armed timer samples. */
  function Next(t: Times, s: Sensor, step: Step): (Sensor, seq<Event>) {
    match step
    case Wake => (s.(timer := true), [])
    case Sample(level) => if s.timer then Tick(t, s, level) else (s, [])
  }

  function Run(t: Times, s: Sensor, steps: seq<Step>): (Sensor, seq<Event>) {
    if steps == [] then (s, [])
    else
      var before := Run(t, s, steps[..|steps| - 1]);
      var after := Next(t, before.0, steps[|steps| - 1]);
      (after.0, before.1 + after.1)
  }

  function Votes(levels: seq<bool>, level: bool): nat {
    if levels == [] then 0
    else Votes(levels[..|levels| - 1], level) + if levels[|levels| - 1] == level then 1 else 0
  }

  function Samples(levels: seq<bool>): seq<Step> {
    seq(|levels|, i requires 0 <= i < |levels| => Sample(levels[i]))
  }

  /** Neither level has its quorum yet. */
  predicate Open(t: Times, levels: seq<bool>) {
    Votes(levels, true) < t.online && Votes(levels, false) < t.offline
  }

  lemma VotesStep(t: Times, s: Sensor, levels: seq<bool>)
    requires levels != []
    ensures var before := Run(t, s, Samples(levels[..|levels| - 1]));
      var after := Next(t, before.0, Sample(levels[|levels| - 1]));
      Run(t, s, Samples(levels)) == (after.0, before.1 + after.1)
  {
    assert Samples(levels)[..|levels| - 1] == Samples(levels[..|levels| - 1]);
  }

  lemma {:induction false} VotesGrow(levels: seq<bool>)
    ensures Votes(levels, true) + Votes(levels, false) == |levels|
    decreases |levels|
  {
    if levels != [] {
      VotesGrow(levels[..|levels| - 1]);
    }
  }

  ghost predicate Idle(s: Sensor) {
    s.inCnt == 0 && s.outCnt == 0
  }

  /** MAIN: a session runs while neither level has its quorum, and is then decided by the last sample. */
  lemma {:induction false} SessionOpenIff(t: Times, s: Sensor, levels: seq<bool>)
    requires Idle(s) && s.timer && t.online > 0 && t.offline > 0
    requires levels != [] ==> Open(t, levels[..|levels| - 1])
    ensures var (e, log) := Run(t, s, Samples(levels));
      && (e.timer <==> Open(t, levels))
      && (e.timer ==> e == Sensor(Votes(levels, true), Votes(levels, false), true, s.online) && log == [])
      && (!e.timer ==> levels != [] && (e, log) == Decide(s, levels[|levels| - 1]))
    decreases |levels|
  {
    if levels != [] {
      var init := levels[..|levels| - 1];
      assert init != [] ==> Open(t, init[..|init| - 1]);
      SessionOpenIff(t, s, init);
      VotesStep(t, s, levels);
      var (e, log) := Run(t, s, Samples(init));
      var more := Next(t, e, Sample(levels[|levels| - 1])).1;
      assert log + more == more;
    } else {
      assert Samples(levels) == [];
    }
  }

  /** A session never outlasts online + offline - 1 samples. */
  lemma SessionBounded(t: Times, levels: seq<bool>)
    requires Open(t, levels)
    ensures |levels| <= t.online + t.offline - 2
  {
    VotesGrow(levels);
  }

  /** The shipped sensors: 10 samples on, 25 off for USB, 5 and 15 for the lid; they decide within 34 and 19. */
  lemma ShippedSensorsDecide(levels: seq<bool>)
    ensures Open(USB, levels) <==> Votes(levels, true) < 10 && Votes(levels, false) < 25
    ensures Open(HALL, levels) <==> Votes(levels, true) < 5 && Votes(levels, false) < 15
    ensures Open(USB, levels) ==> |levels| < 34
    ensures Open(HALL, levels) ==> |levels| < 19
  {
    VotesGrow(levels);
  }

  ghost predicate Inv(t: Times, s: Sensor) {
    (!s.timer ==> Idle(s)) && s.inCnt < t.online && s.outCnt < t.offline
  }

  /** The wake-up opens a session of its own. */
  lemma WakeOpensSession(t: Times, s: Sensor, levels: seq<bool>)
    requires Inv(t, s) && !s.timer && (levels != [] ==> Open(t, levels[..|levels| - 1]))
    ensures var e := Next(t, s, Wake).0;
      && e == s.(timer := e.timer) && Next(t, s, Wake).1 == []
      && (Run(t, e, Samples(levels)).0.timer <==> Open(t, levels))
  {
    SessionOpenIff(t, Next(t, s, Wake).0, levels);
  }

  /** MAIN: over any steps the counters keep below their quorums and the events strictly alternate. */
  lemma {:induction false} EventsAlternate(t: Times, s: Sensor, steps: seq<Step>)
    requires Inv(t, s)
    ensures var (e, log) := Run(t, s, steps);
      && Inv(t, e)
      && e.online == (s.online == (|log| % 2 == 0))
      && forall i :: 0 <= i < |log| ==> log[i] == if s.online == (i % 2 == 0) then WentOffline else CameOnline
    decreases |steps|
  {
    if steps != [] {
      EventsAlternate(t, s, steps[..|steps| - 1]);
    }
  }

  /** A sensor's static counters and timer. */
  class Detector {
    const times: Times
    var inCnt: nat
    var outCnt: nat
    var timer: bool
    var online: bool

    function View(): Sensor
      reads this
    {
      Sensor(inCnt, outCnt, timer, online)
    }

    constructor (times: Times, online: bool)
      ensures this.times == times && View() == Sensor(0, 0, true, online)
    {
      this.times := times;
      inCnt, outCnt, timer, this.online := 0, 0, true, online;
    }

    /** `usb_detect_func`, `hall_detect_func`. */
    method Detect(level: bool) returns (events: seq<Event>)
      modifies this
      ensures (View(), events) == Tick(times, old(View()), level)
    {
      events := [];
      if level {
        inCnt := inCnt + 1;
        if inCnt >= times.online {
          timer := false;
          inCnt := 0;
          outCnt := 0;
          if !online {
            online := true;
            events := [CameOnline];
          }
        }
      } else {
        outCnt := outCnt + 1;
        if outCnt >= times.offline {
          timer := false;
          inCnt := 0;
          outCnt := 0;
          if online {
            online := false;
            events := [WentOffline];
          }
        }
      }
    }
  }
}
