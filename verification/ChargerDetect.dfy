/** The three-zone charger debouncer: what one sampling session confirms, and what the application hears over all sessions. */
module ChargerDetect {
  import opened CInt

  /** The 5 V input against battery and plug-out voltage. */
  datatype Zone = In | Off | Err

  datatype Event = Ldo5vIn | Ldo5vOff | Ldo5vKeep

  /** The three counters, the sampling timer, the flag of the last confirmed zone and the online flag. */
  datatype Detector = Detector(inCnt: nat, offCnt: nat, errCnt: nat, armed: bool, flag: nat, online: bool)

  function Counter(d: Detector, z: Zone): nat {
    match z case In => d.inCnt case Off => d.offCnt case Err => d.errCnt
  }

  function FlagOf(z: Zone): nat {
    match z case In => 1 case Off => 2 case Err => 4
  }

  /** Samples a counter takes before the next one confirms. */
  function Limit(filter: nat, z: Zone): nat {
    if z.Off? then filter + 10 else 50
  }

  function Announce(filter: nat, z: Zone): seq<Event> {
    match z
    case In => [Ldo5vIn]
    case Off => [Ldo5vOff]
    case Err => if filter != 0 then [Ldo5vKeep] else []
  }

  /** What confirming a zone announces, given the flag before. */
  function Due(filter: nat, flag: nat, z: Zone): seq<Event> {
    if flag == FlagOf(z) then [] else Announce(filter, z)
  }

  function OnlyCounter(d: Detector, z: Zone, n: nat): Detector {
    d.(inCnt := if z.In? then n else 0, offCnt := if z.Off? then n else 0, errCnt := if z.Err? then n else 0)
  }

  /** A zone confirmed by a session, and what was announced for it. */
  datatype Entry = Entry(zone: Zone, events: seq<Event>)

  /** One sample, and the confirmation it brings, if any. */
  function Sample(filter: nat, d: Detector, z: Zone): (Detector, seq<Entry>) {
    if Counter(d, z) < Limit(filter, z) then (OnlyCounter(d, z, U16(Counter(d, z) + 1)), [])
    else (OnlyCounter(d, z, 0).(armed := false, flag := FlagOf(z), online := !z.Off?),
          [Entry(z, Due(filter, d.flag, z))])
  }

  /** The wake-up interrupt arms the timer; samples are taken only while it is armed. */
  datatype Step = Wake | Tick(zone: Zone)

  function Next(filter: nat, d: Detector, s: Step): (Detector, seq<Entry>) {
    match s
    case Wake => (d.(armed := true), [])
    case Tick(z) => if d.armed then Sample(filter, d, z) else (d, [])
  }

  function Run(filter: nat, d: Detector, steps: seq<Step>): (Detector, seq<Entry>) {
    if steps == [] then (d, [])
    else
      var before := Run(filter, d, steps[..|steps| - 1]);
      var after := Next(filter, before.0, steps[|steps| - 1]);
      (after.0, before.1 + after.1)
  }

  // ---------- invariant ----------

  ghost predicate Quiet(d: Detector) {
    forall z :: Counter(d, z) == 0
  }

  ghost predicate Inv(filter: nat, d: Detector) {
    && (forall y, z :: Counter(d, y) > 0 && Counter(d, z) > 0 ==> y == z)
    && (forall z :: Counter(d, z) <= Limit(filter, z) && Counter(d, z) < TWO16)
    && (!d.armed ==> Quiet(d))
  }

  lemma NextKeepsInv(filter: nat, d: Detector, s: Step)
    requires Inv(filter, d)
    ensures Inv(filter, Next(filter, d, s).0)
  {
    var e := Next(filter, d, s).0;
    if s.Tick? && d.armed {
      assert forall y :: y != s.zone ==> Counter(e, y) == 0;
    } else {
      assert forall y :: Counter(e, y) == Counter(d, y);
    }
  }

  /** At most one counter runs, none without the timer, whatever the interrupts and samples. */
  lemma {:induction false} ReachableInv(filter: nat, d: Detector, steps: seq<Step>)
    requires Inv(filter, d)
    ensures Inv(filter, Run(filter, d, steps).0)
    decreases |steps|
  {
    if steps != [] {
      ReachableInv(filter, d, steps[..|steps| - 1]);
      NextKeepsInv(filter, Run(filter, d, steps[..|steps| - 1]).0, steps[|steps| - 1]);
    }
  }

  // ---------- one session ----------

  /** How many of the last samples in a row were `z`. */
  function Trail(zs: seq<Zone>, z: Zone): nat {
    if zs == [] || zs[|zs| - 1] != z then 0 else 1 + Trail(zs[..|zs| - 1], z)
  }

  /** No zone has yet been seen often enough in a row, here or earlier. */
  ghost predicate Undecided(filter: nat, zs: seq<Zone>) {
    && (forall z :: Trail(zs, z) <= Limit(filter, z))
    && (zs != [] ==> Undecided(filter, zs[..|zs| - 1]))
  }

  function Ticks(zs: seq<Zone>): seq<Step> {
    seq(|zs|, i requires 0 <= i < |zs| => Tick(zs[i]))
  }

  lemma {:induction false} TrailAtMost(zs: seq<Zone>, z: Zone)
    ensures Trail(zs, z) <= |zs| && forall i :: |zs| - Trail(zs, z) <= i < |zs| ==> zs[i] == z
    ensures Trail(zs, z) < |zs| ==> zs[|zs| - 1 - Trail(zs, z)] != z
    decreases |zs|
  {
    if zs != [] && zs[|zs| - 1] == z {
      TrailAtMost(zs[..|zs| - 1], z);
    }
  }

  lemma UndecidedStep(filter: nat, zs: seq<Zone>)
    requires zs != []
    ensures Undecided(filter, zs) <==>
      Undecided(filter, zs[..|zs| - 1]) && Trail(zs, zs[|zs| - 1]) <= Limit(filter, zs[|zs| - 1])
  {
    assert forall y :: y != zs[|zs| - 1] ==> Trail(zs, y) == 0;
  }

  lemma TicksStep(filter: nat, d: Detector, zs: seq<Zone>)
    requires zs != []
    ensures var before := Run(filter, d, Ticks(zs[..|zs| - 1]));
      var after := Next(filter, before.0, Tick(zs[|zs| - 1]));
      Run(filter, d, Ticks(zs)) == (after.0, before.1 + after.1)
  {
    assert Ticks(zs)[..|zs| - 1] == Ticks(zs[..|zs| - 1]);
  }

  /** MAIN: a session stays open exactly while no zone was seen Limit + 1 times in a row; its counters are the current streaks. */
  lemma {:induction false} SessionOpenIff(filter: nat, d: Detector, zs: seq<Zone>)
    requires Quiet(d) && d.armed && filter + 10 < TWO16
    ensures var (e, log) := Run(filter, d, Ticks(zs));
      && (e.armed <==> Undecided(filter, zs))
      && (e.armed ==> log == [] && e.flag == d.flag && e.online == d.online && forall z :: Counter(e, z) == Trail(zs, z))
    decreases |zs|
  {
    if zs != [] {
      var init := zs[..|zs| - 1];
      SessionOpenIff(filter, d, init);
      UndecidedStep(filter, zs);
      TicksStep(filter, d, zs);
      var (e, log) := Run(filter, d, Ticks(init));
      if e.armed {
        LastStreak(filter, init, zs[|zs| - 1]);
        hide Sample, Run, Ticks, Undecided, Trail, Limit;
        SampleStep(filter, e, zs);
      }
    } else {
      assert Ticks(zs) == [];
    }
  }

  /** The wake-up opens a session of its own: what came before makes no difference to it. */
  lemma WakeOpensSession(filter: nat, d: Detector, zs: seq<Zone>)
    requires Inv(filter, d) && !d.armed && filter + 10 < TWO16
    ensures var e := Next(filter, d, Wake).0;
      && e == d.(armed := e.armed)
      && (Run(filter, e, Ticks(zs)).0.armed <==> Undecided(filter, zs))
  {
    var e := Next(filter, d, Wake).0;
    assert forall z :: Counter(e, z) == Counter(d, z);
    SessionOpenIff(filter, e, zs);
  }

  lemma LastStreak(filter: nat, zs: seq<Zone>, z: Zone)
    requires Undecided(filter, zs)
    ensures Trail(zs, z) <= Limit(filter, z)
  {
  }

  lemma TrailStep(zs: seq<Zone>, y: Zone)
    requires zs != []
    ensures Trail(zs, y) == if y == zs[|zs| - 1] then Trail(zs[..|zs| - 1], y) + 1 else 0
  {
  }

  lemma NoWrap(filter: nat, z: Zone, n: nat)
    requires filter + 10 < TWO16 && n < Limit(filter, z)
    ensures U16(n + 1) == n + 1
  {
  }

  lemma SampleStep(filter: nat, e: Detector, zs: seq<Zone>)
    requires zs != [] && e.armed && filter + 10 < TWO16
    requires forall y :: Counter(e, y) == Trail(zs[..|zs| - 1], y)
    requires Counter(e, zs[|zs| - 1]) <= Limit(filter, zs[|zs| - 1])
    ensures var (f, log) := Sample(filter, e, zs[|zs| - 1]);
      && (f.armed <==> Trail(zs, zs[|zs| - 1]) <= Limit(filter, zs[|zs| - 1]))
      && (f.armed ==> log == [] && f.flag == e.flag && f.online == e.online && forall y :: Counter(f, y) == Trail(zs, y))
  {
    hide Trail, U16, Limit, Announce;
    var z := zs[|zs| - 1];
    TrailStep(zs, z);
    var (f, log) := Sample(filter, e, z);
    if Counter(e, z) < Limit(filter, z) {
      NoWrap(filter, z, Counter(e, z));
      forall y
        ensures Counter(f, y) == Trail(zs, y)
      {
        TrailStep(zs, y);
      }
    }
  }

  /** MAIN: the sample that ends an open session confirms its own zone, after 51 of it in a row or the filter's 11 more for OFF. */
  lemma ConfirmedBy(filter: nat, d: Detector, zs: seq<Zone>, z: Zone)
    requires Quiet(d) && d.armed && filter + 10 < TWO16 && Undecided(filter, zs) && !Undecided(filter, zs + [z])
    ensures var (e, log) := Run(filter, d, Ticks(zs + [z]));
      && !e.armed && Quiet(e)
      && e.flag == FlagOf(z) && e.online == !z.Off?
      && log == [Entry(z, Due(filter, d.flag, z))]
      && Trail(zs + [z], z) == if z.Off? then filter + 11 else 51
  {
    SessionOpenIff(filter, d, zs);
    UndecidedStep(filter, zs + [z]);
    assert (zs + [z])[..|zs|] == zs;
    assert Ticks(zs + [z])[..|zs|] == Ticks(zs);
  }

  ghost predicate ConfirmsOff(filter: nat, d: Detector, steps: seq<Step>) {
    exists e :: e in Run(filter, d, steps).1 && e.zone.Off?
  }

  lemma {:induction false} NeverOff(filter: nat, d: Detector, steps: seq<Step>)
    requires Inv(filter, d) && filter + 10 >= TWO16
    ensures !ConfirmsOff(filter, d, steps)
    decreases |steps|
  {
    if steps != [] {
      var init := steps[..|steps| - 1];
      NeverOff(filter, d, init);
      ReachableInv(filter, d, init);
      assert Counter(Run(filter, d, init).0, Off) < Limit(filter, Off);
    }
  }

  lemma {:induction false} OffTrail(n: nat)
    ensures Trail(seq(n, _ => Off), Off) == n
  {
    if n > 0 {
      OffTrail(n - 1);
      assert seq(n, _ => Off)[..n - 1] == seq(n - 1, _ => Off);
    }
  }

  lemma {:induction false} OffUndecided(filter: nat, n: nat)
    requires n <= filter + 10
    ensures Undecided(filter, seq(n, _ => Off))
    decreases n
  {
    var zs := seq(n, _ => Off);
    if n > 0 {
      OffUndecided(filter, n - 1);
      OffTrail(n);
      assert zs[..n - 1] == seq(n - 1, _ => Off);
      UndecidedStep(filter, zs);
    }
  }

  /** A plug-out can be confirmed at all exactly when the filter leaves its limit in the 16-bit counter. */
  lemma OffConfirmableIff(filter: nat)
    ensures (exists d, steps :: Inv(filter, d) && ConfirmsOff(filter, d, steps)) <==> filter + 10 < TWO16
  {
    if filter + 10 < TWO16 {
      var d := Detector(0, 0, 0, true, 0, false);
      var zs := seq(filter + 10, _ => Off);
      OffUndecided(filter, filter + 10);
      OffTrail(filter + 11);
      assert seq(filter + 11, _ => Off) == zs + [Off];
      UndecidedStep(filter, zs + [Off]);
      ConfirmedBy(filter, d, zs, Off);
      var log := Run(filter, d, Ticks(zs + [Off])).1;
      assert log[0] in log;
      assert Inv(filter, d) && ConfirmsOff(filter, d, Ticks(zs + [Off]));
    } else {
      forall d, steps | Inv(filter, d)
        ensures !ConfirmsOff(filter, d, steps)
      {
        NeverOff(filter, d, steps);
      }
    }
  }

  // ---------- all sessions ----------

  /** The flag after a log of confirmations. */
  function FlagAfter(flag: nat, log: seq<Entry>): nat {
    if log == [] then flag else FlagOf(log[|log| - 1].zone)
  }

  /** Each confirmation was announced exactly if it changed the flag. */
  ghost predicate Explained(filter: nat, flag: nat, log: seq<Entry>) {
    forall i :: 0 <= i < |log| ==> log[i].events == Due(filter, FlagAfter(flag, log[..i]), log[i].zone)
  }

  lemma ExplainedAppend(filter: nat, flag: nat, log: seq<Entry>, e: Entry)
    requires Explained(filter, flag, log) && e.events == Due(filter, FlagAfter(flag, log), e.zone)
    ensures Explained(filter, flag, log + [e])
  {
    hide Due, FlagAfter;
    var all := log + [e];
    assert all[..|log|] == log;
    assert forall i :: 0 <= i < |log| ==> all[..i] == log[..i];
  }

  /** MAIN: the flag is the last confirmed zone, and a confirmation is announced exactly when it changes the zone. */
  lemma {:induction false} AnnouncedIffChanged(filter: nat, d: Detector, steps: seq<Step>)
    ensures var (e, log) := Run(filter, d, steps);
      && e.flag == FlagAfter(d.flag, log)
      && (log != [] ==> e.online == !log[|log| - 1].zone.Off?)
      && Explained(filter, d.flag, log)
    decreases |steps|
  {
    if steps != [] {
      var (b, log) := Run(filter, d, steps[..|steps| - 1]);
      var (e, more) := Next(filter, b, steps[|steps| - 1]);
      RunLast(filter, d, steps);
      hide *;
      AnnouncedIffChanged(filter, d, steps[..|steps| - 1]);
      NextAnnounces(filter, b, steps[|steps| - 1]);
      if more != [] {
        assert more == [more[0]];
        ExplainedAppend(filter, d.flag, log, more[0]);
        FlagAppend(d.flag, log, more[0]);
      } else {
        assert log + more == log;
      }
    }
  }

  lemma RunLast(filter: nat, d: Detector, steps: seq<Step>)
    requires steps != []
    ensures var before := Run(filter, d, steps[..|steps| - 1]);
      var after := Next(filter, before.0, steps[|steps| - 1]);
      Run(filter, d, steps) == (after.0, before.1 + after.1)
  {
  }

  lemma FlagAppend(flag: nat, log: seq<Entry>, e: Entry)
    ensures FlagAfter(flag, log + [e]) == FlagOf(e.zone)
  {
  }

  lemma NextAnnounces(filter: nat, d: Detector, s: Step)
    ensures var (e, log) := Next(filter, d, s);
      && |log| <= 1
      && (log == [] ==> e.flag == d.flag && e.online == d.online)
      && (log != [] ==> e.flag == FlagOf(log[0].zone) && e.online == !log[0].zone.Off?)
      && (log != [] ==> log[0].events == Due(filter, d.flag, log[0].zone))
  {
  }

  lemma DueTellsZone(filter: nat, f: nat, y: Zone, g: nat, z: Zone)
    requires Due(filter, f, y) == Due(filter, g, z) != []
    ensures y == z && g != FlagOf(z)
  {
  }

  lemma FlagIsLast(flag: nat, log: seq<Entry>, j: nat)
    requires 0 < j <= |log|
    ensures FlagAfter(flag, log[..j]) == FlagOf(log[j - 1].zone)
  {
  }

  /** Between two equal announcements another zone was confirmed. */
  lemma NoRepeatedEvent(filter: nat, flag: nat, log: seq<Entry>, i: nat, j: nat)
    requires Explained(filter, flag, log)
    requires i < j < |log| && log[i].events == log[j].events != []
    ensures exists k :: i < k < j && log[k].zone != log[j].zone
  {
    var f, g := FlagAfter(flag, log[..i]), FlagAfter(flag, log[..j]);
    assert log[i].events == Due(filter, f, log[i].zone) && log[j].events == Due(filter, g, log[j].zone);
    hide *;
    DueTellsZone(filter, f, log[i].zone, g, log[j].zone);
    FlagIsLast(flag, log, j);
    assert log[j - 1].zone != log[j].zone;
  }

  /** The zone an event tells of. */
  function ZoneOf(e: Event): Zone {
    match e case Ldo5vIn => In case Ldo5vOff => Off case Ldo5vKeep => Err
  }

  /** All events of a log in order. */
  function Heard(log: seq<Entry>): seq<Event> {
    if log == [] then [] else Heard(log[..|log| - 1]) + log[|log| - 1].events
  }

  /** The application's picture: what the last event told. */
  ghost predicate Tells(events: seq<Event>, z: Zone) {
    events != [] && ZoneOf(events[|events| - 1]) == z
  }

  lemma {:induction false} HeardAppends(a: seq<Entry>, b: seq<Entry>)
    ensures Heard(a + b) == Heard(a) + Heard(b)
    decreases |b|
  {
    if b == [] {
      assert a + b == a;
    } else {
      assert (a + b)[..|a + b| - 1] == a + b[..|b| - 1];
      HeardAppends(a, b[..|b| - 1]);
    }
  }

  /** Whether a confirmation is told: a new zone is, but without a filter a brown-out is not. */
  predicate Told(filter: nat, flag: nat, z: Zone) {
    FlagOf(z) != flag && (z.Err? ==> filter != 0)
  }

  lemma StepTells(filter: nat, d: Detector, s: Step)
    ensures var (e, log) := Next(filter, d, s);
      && (log == [] ==> e.flag == d.flag)
      && (log != [] ==> |log| == 1 && e.flag == FlagOf(log[0].zone))
      && (log != [] ==> if Told(filter, d.flag, log[0].zone) then Tells(log[0].events, log[0].zone) else log[0].events == [])
  {
  }

  /**
   MAIN: from a fresh detector, with a filter, the last event the application heard tells the last zone confirmed,
   over any run of interrupts and samples; without a filter it does so unless that zone was a brown-out.
   */
  lemma {:induction false} LastEventTellsZone(filter: nat, d: Detector, steps: seq<Step>)
    requires d.flag == 0
    ensures var (e, log) := Run(filter, d, steps);
      && (log == [] ==> e.flag == 0 && Heard(log) == [])
      && (log != [] ==> e.flag == FlagOf(log[|log| - 1].zone))
      && (log != [] && (filter != 0 || !log[|log| - 1].zone.Err?) ==> Tells(Heard(log), log[|log| - 1].zone))
    decreases |steps|
  {
    if steps != [] {
      var (b, log) := Run(filter, d, steps[..|steps| - 1]);
      var (e, more) := Next(filter, b, steps[|steps| - 1]);
      RunLast(filter, d, steps);
      hide Next, Run, Heard, Tells, Announce;
      LastEventTellsZone(filter, d, steps[..|steps| - 1]);
      StepTells(filter, b, steps[|steps| - 1]);
      if more != [] {
        assert more == [more[0]];
        HeardOneMore(log, more[0]);
      } else {
        assert log + more == log;
      }
    } else {
      assert Heard([]) == [];
    }
  }

  lemma HeardOneMore(log: seq<Entry>, e: Entry)
    ensures Heard(log + [e]) == Heard(log) + e.events
    ensures forall z :: Tells(e.events, z) ==> Tells(Heard(log + [e]), z)
    ensures e.events == [] ==> Heard(log + [e]) == Heard(log)
  {
    HeardAppends(log, [e]);
    assert Heard([e]) == e.events by {
      assert [e][..0] == [];
    }
    assert Heard(log) + [] == Heard(log);
  }
}
