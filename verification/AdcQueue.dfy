/**
 The ADC sampler: a round-robin scan over channel slots, an interrupt that delivers results,
 and an "occupy" mode that borrows the converter and hands the pending result back.

 Every conversion carries an identity, so one can say whose result ends up where.
 */
module AdcQueue {

  const MAX_CH := 10
  const NO_CH := -1
  const CH_LDOREF := 0x0F
  const PENDING := 0xFFFF

  datatype Conversion = Unconverted | Conversion(id: nat, ch: int)

  datatype Reading = Reading(value: nat, source: Conversion)

  datatype Slot = Slot(ch: int, value: Reading, due: nat, period: nat)

  datatype Adc = Adc(
    queue: seq<Slot>,       // MAX_CH scanned slots, then the occupy slot
    cur: nat,
    res: Reading,           // the last result, or PENDING
    saved: Reading,         // the result set aside by occupy mode
    flag: nat,              // 0: nothing to collect, 1: for slot `cur`, 2: for the reference
    changeVbg: bool,
    vbg: Reading,
    busy: bool,
    hw: Conversion,         // the conversion in the converter
    // history
    nextId: nat,
    owed: Conversion,       // the conversion the scan is to collect
    borrowed: bool)         // occupy mode was entered and its result not yet taken

  ghost predicate Sized(s: Adc) {
    |s.queue| == MAX_CH + 1 && s.cur < MAX_CH && s.flag <= 2
  }

  predicate Occupied(s: Adc)
    requires |s.queue| == MAX_CH + 1
  {
    s.queue[MAX_CH].ch != NO_CH
  }

  function StartConversion(s: Adc, ch: int): Adc {
    var c := Conversion(s.nextId, ch);
    s.(res := Reading(PENDING, c), busy := true, hw := c, nextId := s.nextId + 1)
  }

  /** First occupied slot after `i`, else slot 0. */
  function NextSlot(queue: seq<Slot>, i: nat): (r: nat)
    requires |queue| == MAX_CH + 1 && 1 <= i <= MAX_CH
    ensures r < MAX_CH
    ensures r != 0 ==> i <= r && queue[r].ch != NO_CH
    ensures forall j :: i <= j < (if r == 0 then MAX_CH else r) ==> queue[j].ch == NO_CH
    decreases MAX_CH - i
  {
    if i >= MAX_CH then 0 else if queue[i].ch != NO_CH then i else NextSlot(queue, i + 1)
  }

  function Selected(s: Adc): nat
    requires Sized(s)
  {
    NextSlot(s.queue, s.cur + 1)
  }

  function Collect(s: Adc): Adc
    requires Sized(s)
  {
    if s.flag == 0 then s
    else if s.flag == 2 then s.(vbg := s.res, flag := 0)
    else
      s.(queue := s.queue[s.cur := s.queue[s.cur].(value := s.res)],
         vbg := if s.queue[s.cur].ch == CH_LDOREF then s.res else s.vbg, flag := 0)
  }

  /** Start the next slot's conversion if its time has come; move on in any case. */
  function SampleNext(s: Adc, now: nat): Adc
    requires Sized(s)
  {
    var n := Selected(s);
    var slot := s.queue[n];
    var t :=
      if slot.period == 0 then Owe(StartConversion(s, slot.ch), 1)
      else if slot.due < now then
        Owe(StartConversion(s, slot.ch), 1).(queue := s.queue[n := slot.(due := slot.due + slot.period)])
      else s;
    t.(cur := n)
  }

  function Owe(s: Adc, flag: nat): Adc {
    s.(flag := flag, owed := s.hw)
  }

  /** `adc_scan` runs only when the converter is idle and not occupied. */
  predicate ScanActs(s: Adc)
    requires Sized(s)
  {
    !Occupied(s) && !s.busy
  }

  function Scan(s: Adc, now: nat): Adc
    requires Sized(s)
  {
    if !ScanActs(s) then s
    else
      var t := Collect(s);
      if t.changeVbg then Owe(StartConversion(t.(changeVbg := false), CH_LDOREF), 2)
      else SampleNext(t, now)
  }

  function Isr(s: Adc, raw: nat): Adc {
    s.(res := Reading(raw, s.hw), busy := false)
  }

  function EnterOccupy(s: Adc, ch: int): Adc
    requires |s.queue| == MAX_CH + 1
  {
    if s.busy then s
    else
      var t := s.(queue := s.queue[MAX_CH := s.queue[MAX_CH].(ch := ch)], saved := s.res, borrowed := true);
      StartConversion(t, ch)
  }

  /** The busy-wait in `adc_occupy_run` is over. */
  predicate ResultThere(s: Adc) {
    s.res.value != PENDING
  }

  function OccupyResult(s: Adc): Reading {
    if s.res.value == 0 then s.res.(value := 1) else s.res
  }

  function OccupyRun(s: Adc): Adc
    requires |s.queue| == MAX_CH + 1
  {
    if !Occupied(s) then s
    else s.(queue := s.queue[MAX_CH := s.queue[MAX_CH].(value := OccupyResult(s))], res := s.saved, borrowed := false)
  }

  function ExitOccupy(s: Adc): Adc
    requires |s.queue| == MAX_CH + 1
  {
    s.(queue := s.queue[MAX_CH := s.queue[MAX_CH].(ch := NO_CH)], borrowed := false)
  }

  /** Slot `adc_add_sample_ch` stops at: the channel's own, or the first free one. */
  function FindSlot(queue: seq<Slot>, ch: int, i: nat): (r: nat)
    requires |queue| == MAX_CH + 1 && i <= MAX_CH
    ensures i <= r <= MAX_CH
    ensures r < MAX_CH ==> queue[r].ch == ch || queue[r].ch == NO_CH
    decreases MAX_CH - i
  {
    if i >= MAX_CH || queue[i].ch == ch || queue[i].ch == NO_CH then i else FindSlot(queue, ch, i + 1)
  }

  function AddChannel(s: Adc, ch: int): Adc
    requires |s.queue| == MAX_CH + 1
  {
    var i := FindSlot(s.queue, ch, 0);
    if i < MAX_CH && s.queue[i].ch != ch then s.(queue := s.queue[i := Slot(ch, Reading(1, Unconverted), 0, 0)]) else s
  }

  function FindChannel(queue: seq<Slot>, ch: int, i: nat): (r: nat)
    requires |queue| == MAX_CH + 1 && i <= MAX_CH
    ensures i <= r <= MAX_CH
    ensures r < MAX_CH ==> queue[r].ch == ch
    decreases MAX_CH - i
  {
    if i >= MAX_CH || queue[i].ch == ch then i else FindChannel(queue, ch, i + 1)
  }

  function RemoveChannel(s: Adc, ch: int): Adc
    requires |s.queue| == MAX_CH + 1
  {
    var i := FindChannel(s.queue, ch, 0);
    if i < MAX_CH then s.(queue := s.queue[i := s.queue[i].(ch := NO_CH)]) else s
  }

  /** A channel is from now on sampled once every `period` ticks. */
  function SetFreq(s: Adc, ch: int, period: nat, now: nat): Adc
    requires |s.queue| == MAX_CH + 1
  {
    var i := FindChannel(s.queue, ch, 0);
    if i < MAX_CH then s.(queue := s.queue[i := s.queue[i].(period := period, due := period + now)]) else s
  }

  datatype Step =
    | DoScan(now: nat) | DoIsr(raw: nat) | DoEnter(ch: int) | DoRun | DoExit
    | DoAdd(ch: int) | DoRemove(ch: int) | DoFreq(ch: int, period: nat, now: nat) | AskVbg

  predicate Enabled(s: Adc, t: Step)
    requires |s.queue| == MAX_CH + 1
  {
    match t
    case DoIsr(raw) => s.busy && raw < PENDING
    case DoRun => Occupied(s) ==> ResultThere(s)
    case _ => true
  }

  function Next(s: Adc, t: Step): Adc
    requires Sized(s)
  {
    match t
    case DoScan(now) => Scan(s, now)
    case DoIsr(raw) => Isr(s, raw)
    case DoEnter(ch) => EnterOccupy(s, ch)
    case DoRun => OccupyRun(s)
    case DoExit => ExitOccupy(s)
    case DoAdd(ch) => AddChannel(s, ch)
    case DoRemove(ch) => RemoveChannel(s, ch)
    case DoFreq(ch, period, now) => SetFreq(s, ch, period, now)
    case AskVbg => s.(changeVbg := true)
  }

  function Empty(): Adc {
    var none := Reading(0, Unconverted);
    Adc(seq(MAX_CH + 1, _ => Slot(NO_CH, none, 0, 0)), 0, none, none, 0, false, none, false, Unconverted, 0, Unconverted, false)
  }

  // ---------- provenance ----------

  /** Where the owed result is: in the converter, in `res`, or set aside. */
  ghost predicate OwedSafe(s: Adc)
    requires Sized(s)
  {
    s.flag != 0 ==>
      && s.owed.Conversion? && s.owed.id < s.nextId
      && (s.flag == 2 ==> s.owed.ch == CH_LDOREF)
      && (s.flag == 1 ==> s.queue[s.cur].ch == s.owed.ch || s.queue[s.cur].ch == NO_CH)
      && if s.borrowed then Holds(s.saved, s.owed)
         else if s.busy then s.hw == s.owed && !Occupied(s)
         else Holds(s.res, s.owed) && (Occupied(s) ==> Holds(s.saved, s.owed))
  }

  ghost predicate Holds(r: Reading, c: Conversion) {
    r.source == c && r.value != PENDING
  }

  /** The borrowed conversion: made for the occupy channel, and not the owed one. */
  ghost predicate BorrowSafe(s: Adc)
    requires Sized(s)
  {
    s.borrowed ==>
      var c := if s.busy then s.hw else s.res.source;
      && Occupied(s)
      && c.Conversion? && c.ch == s.queue[MAX_CH].ch
      && (s.flag != 0 ==> s.owed.Conversion? && s.owed.id < c.id)
  }

  /** A stored value was converted on that slot's channel (or is the initial value). */
  ghost predicate SlotSafe(slot: Slot) {
    slot.ch != NO_CH && slot.value.source.Conversion? ==> slot.value.source.ch == slot.ch && slot.value.value != PENDING
  }

  ghost predicate Inv(s: Adc) {
    && Sized(s) && OwedSafe(s) && BorrowSafe(s)
    && (s.busy ==> s.res.value == PENDING)
    && (forall i :: 0 <= i < MAX_CH ==> SlotSafe(s.queue[i]))
    && (s.vbg.source.Conversion? ==> s.vbg.source.ch == CH_LDOREF && s.vbg.value != PENDING)
  }

  lemma EmptyInv()
    ensures Inv(Empty())
  {
  }

  /**
   The discipline callers must keep while a scan result is pending: take an occupy result before
   entering again or leaving; do not give the pending slot to another channel.
   */
  function PendingChannel(s: Adc): int {
    if s.owed.Conversion? then s.owed.ch else NO_CH
  }

  predicate Disciplined(s: Adc, t: Step)
    requires Sized(s)
  {
    match t
    case DoEnter(ch) => ch != NO_CH && (s.flag == 0 || s.busy || !s.borrowed)
    case DoExit => s.flag == 0 || !s.borrowed
    case DoAdd(ch) => s.flag != 1 || FindSlot(s.queue, ch, 0) != s.cur || ch == PendingChannel(s)
    case _ => true
  }

  lemma CollectKeepsInv(s: Adc)
    requires Inv(s) && ScanActs(s)
    ensures Inv(Collect(s)) && Collect(s).flag == 0 && ScanActs(Collect(s)) && !Collect(s).borrowed
  {
  }

  lemma SampleKeepsInv(s: Adc, now: nat)
    requires Inv(s) && ScanActs(s) && s.flag == 0 && !s.borrowed
    ensures Inv(SampleNext(s, now))
    ensures Inv(Owe(StartConversion(s.(changeVbg := false), CH_LDOREF), 2))
  {
  }

  lemma ChannelsKeepInv(s: Adc, t: Step)
    requires Inv(s) && Disciplined(s, t) && (t.DoAdd? || t.DoRemove? || t.DoFreq?)
    ensures Inv(Next(s, t))
  {
  }

  lemma OccupyKeepsInv(s: Adc, t: Step)
    requires Inv(s) && Enabled(s, t) && Disciplined(s, t) && (t.DoEnter? || t.DoRun? || t.DoExit?)
    ensures Inv(Next(s, t))
  {
  }

  /** MAIN: under that discipline every interleaving keeps each stored value on its own channel. */
  lemma StepKeepsInv(s: Adc, t: Step)
    requires Inv(s) && Enabled(s, t) && Disciplined(s, t)
    ensures Inv(Next(s, t))
  {
    match t
    case DoScan(now) =>
      if ScanActs(s) {
        CollectKeepsInv(s);
        SampleKeepsInv(Collect(s), now);
        hide Inv, Collect, SampleNext;
      }
    case DoIsr(_) =>
    case AskVbg =>
    case DoAdd(_) => ChannelsKeepInv(s, t);
    case DoRemove(_) => ChannelsKeepInv(s, t);
    case DoFreq(_, _, _) => ChannelsKeepInv(s, t);
    case _ => OccupyKeepsInv(s, t);
  }

  /** What a scan collects for a slot is the very conversion that was started for it. */
  lemma ScanCollectsOwed(s: Adc, now: nat)
    requires Inv(s) && ScanActs(s) && s.flag == 1
    ensures Scan(s, now).queue[s.cur].value == s.res
    ensures s.res.source == s.owed && s.res.value != PENDING
  {
  }

  /**
   What `adc_occupy_run` hands out was converted on the occupy channel exactly when occupy mode was entered
   since the last run, or the result it takes instead happens to be of that channel.
   */
  lemma RunReturnsOccupiedIff(s: Adc)
    requires Inv(s) && Occupied(s) && ResultThere(s)
    ensures var r := OccupyRun(s).queue[MAX_CH].value;
      && r.value == (if s.res.value == 0 then 1 else s.res.value)
      && (r.source.Conversion? && r.source.ch == s.queue[MAX_CH].ch
          <==> s.borrowed || (s.res.source.Conversion? && s.res.source.ch == s.queue[MAX_CH].ch))
  {
  }

  // ---------- when the pending result is lost ----------

  /** With a result pending, entering occupy mode keeps it exactly when the last borrow was taken. */
  lemma EnterKeepsOwedIff(s: Adc, ch: int)
    requires Inv(s) && s.flag != 0 && ch != NO_CH
    ensures OwedSafe(EnterOccupy(s, ch)) <==> s.busy || !s.borrowed
  {
  }

  /** Likewise for leaving. */
  lemma ExitKeepsOwedIff(s: Adc)
    requires Inv(s) && s.flag != 0
    ensures OwedSafe(ExitOccupy(s)) <==> !s.borrowed
  {
  }

  /** With a slot's result pending, adding a channel keeps it exactly when the slot is not given away. */
  lemma AddKeepsOwedIff(s: Adc, ch: int)
    requires Inv(s) && s.flag == 1 && ch != NO_CH
    ensures OwedSafe(AddChannel(s, ch)) <==> FindSlot(s.queue, ch, 0) != s.cur || ch == s.owed.ch
  {
  }

  /** The conversion whose result the next scan that acts will store. */
  function PendingSource(s: Adc): Conversion {
    if s.borrowed then s.saved.source else if s.busy then s.hw else s.res.source
  }

  predicate FromChannel(c: Conversion, ch: int) {
    c.Conversion? && c.ch == ch
  }

  /** A second enter makes the scan store another channel's value exactly when the first borrow was of another channel. */
  lemma EnterKeepsChannelIff(s: Adc, ch: int)
    requires Inv(s) && s.flag != 0 && ch != NO_CH
    ensures PendingSource(s) == s.owed
    ensures FromChannel(PendingSource(EnterOccupy(s, ch)), s.owed.ch)
      <==> s.busy || !s.borrowed || s.queue[MAX_CH].ch == s.owed.ch
  {
  }

  /** Likewise for leaving with the result untaken. */
  lemma ExitKeepsChannelIff(s: Adc)
    requires Inv(s) && s.flag != 0
    ensures FromChannel(PendingSource(ExitOccupy(s)), s.owed.ch) <==> !s.borrowed || s.queue[MAX_CH].ch == s.owed.ch
  {
  }

  // ---------- runs ----------

  /** A run of steps that can happen, disciplined or not. */
  ghost predicate Happens(s: Adc, run: seq<Step>, t: Adc)
    requires Sized(s)
    decreases |run|
  {
    if run == [] then s == t
    else Enabled(s, run[0]) && Sized(Next(s, run[0])) && Happens(Next(s, run[0]), run[1..], t)
  }

  /** Every step of a run keeps the discipline. */
  ghost predicate Orderly(s: Adc, run: seq<Step>)
    requires Sized(s)
    decreases |run|
  {
    run != [] ==> Disciplined(s, run[0]) && (Sized(Next(s, run[0])) ==> Orderly(Next(s, run[0]), run[1..]))
  }

  lemma {:induction false} RunKeepsInv(s: Adc, run: seq<Step>, t: Adc)
    requires Inv(s) && Happens(s, run, t) && Orderly(s, run)
    ensures Inv(t)
    decreases |run|
  {
    hide OwedSafe, BorrowSafe, SlotSafe, Next, Enabled, Disciplined;
    if run != [] {
      StepKeepsInv(s, run[0]);
      RunKeepsInv(Next(s, run[0]), run[1..], t);
    }
  }

  /** MAIN: in every state an orderly run reaches from the empty queue, each stored value is one of its slot's channel. */
  lemma ReachableInv(run: seq<Step>, t: Adc)
    requires Happens(Empty(), run, t) && Orderly(Empty(), run)
    ensures Inv(t)
  {
    EmptyInv();
    RunKeepsInv(Empty(), run, t);
  }

  /** A step that can happen, and where it leads. */
  ghost predicate Goes(s: Adc, step: Step, u: Adc) {
    Sized(s) && Enabled(s, step) && u == Next(s, step) && Sized(u)
  }

  /** One more step at the front of a run. */
  lemma Before(s: Adc, step: Step, u: Adc, run: seq<Step>, t: Adc)
    requires Goes(s, step, u) && Happens(u, run, t)
    ensures Sized(s) && Happens(s, [step] + run, t)
  {
    hide Next, Enabled;
    assert ([step] + run)[1..] == run;
  }

  lemma LastStep(s: Adc, step: Step, t: Adc)
    requires Goes(s, step, t)
    ensures Sized(s) && Happens(s, [step], t)
  {
    hide Next, Enabled;
    assert [step][1..] == [];
  }

  // A slot for channel 5, its conversion finished and not yet collected, occupy mode entered for channel 9.

  function Sampled(): Adc {
    Isr(Scan(AddChannel(Empty(), 5), 0), 100)
  }

  function Borrowing(): Adc {
    Isr(EnterOccupy(Sampled(), 9), 200)
  }

  lemma SampledState()
    ensures var s := Sampled();
      && Inv(s) && s.flag == 1 && s.cur == 0 && !s.busy && !s.changeVbg && !Occupied(s)
      && s.owed == Conversion(0, 5) && s.res == Reading(100, Conversion(0, 5))
      && s.queue[0] == Slot(5, Reading(1, Unconverted), 0, 0)
  {
    var e := Empty();
    EmptyInv();
    StepKeepsInv(e, DoAdd(5));
    var a := AddChannel(e, 5);
    assert a.queue[0].ch == 5 && FindSlot(e.queue, 5, 0) == 0;
    assert forall i :: 1 <= i <= MAX_CH ==> a.queue[i].ch == NO_CH;
    assert Selected(a) == 0;
    StepKeepsInv(a, DoScan(0));
    StepKeepsInv(Scan(a, 0), DoIsr(100));
  }

  lemma BorrowingState()
    ensures var s := Borrowing();
      && Inv(s) && s.flag == 1 && s.cur == 0 && !s.busy && !s.changeVbg && s.borrowed
      && s.owed == Conversion(0, 5) && s.res == Reading(200, Conversion(1, 9)) && s.saved == Reading(100, Conversion(0, 5))
      && s.queue[0] == Slot(5, Reading(1, Unconverted), 0, 0) && s.queue[MAX_CH].ch == 9
  {
    SampledState();
    var s := Sampled();
    StepKeepsInv(s, DoEnter(9));
    StepKeepsInv(EnterOccupy(s, 9), DoIsr(200));
  }

  const SETUP := [DoAdd(5), DoScan(0), DoIsr(100), DoEnter(9), DoIsr(200)]

  lemma SetupSteps()
    ensures var a := AddChannel(Empty(), 5); Goes(Empty(), DoAdd(5), a) && Goes(a, DoScan(0), Scan(a, 0))
    ensures Goes(Scan(AddChannel(Empty(), 5), 0), DoIsr(100), Sampled())
    ensures Goes(Sampled(), DoEnter(9), EnterOccupy(Sampled(), 9))
    ensures Goes(EnterOccupy(Sampled(), 9), DoIsr(200), Borrowing())
  {
    ScanBusy();
    SampledState();
    BorrowingState();
    hide Inv, NextSlot, FindSlot;
  }

  lemma SetupHappens(run: seq<Step>, t: Adc)
    requires Sized(Borrowing()) && Happens(Borrowing(), run, t)
    ensures Happens(Empty(), SETUP + run, t)
  {
    SetupSteps();
    var a := AddChannel(Empty(), 5);
    var b := Scan(a, 0);
    var c, e := Sampled(), Borrowing();
    var d := EnterOccupy(c, 9);
    hide *;
    Before(d, DoIsr(200), e, run, t);
    Before(c, DoEnter(9), d, [DoIsr(200)] + run, t);
    Before(b, DoIsr(100), c, [DoEnter(9)] + ([DoIsr(200)] + run), t);
    Before(a, DoScan(0), b, [DoIsr(100)] + ([DoEnter(9)] + ([DoIsr(200)] + run)), t);
    Before(Empty(), DoAdd(5), a, [DoScan(0)] + ([DoIsr(100)] + ([DoEnter(9)] + ([DoIsr(200)] + run))), t);
    assert SETUP + run == [DoAdd(5)] + ([DoScan(0)] + ([DoIsr(100)] + ([DoEnter(9)] + ([DoIsr(200)] + run))));
  }

  lemma ScanBusy()
    ensures var a := AddChannel(Empty(), 5); Sized(a) && Sized(Scan(a, 0)) && Scan(a, 0).busy
    ensures Sized(EnterOccupy(Sampled(), 9)) && EnterOccupy(Sampled(), 9).busy
  {
    var a := AddChannel(Empty(), 5);
    assert Selected(a) == 0 by {
      assert forall i :: 1 <= i <= MAX_CH ==> a.queue[i].ch == NO_CH;
    }
    SampledState();
  }

  /** Running twice without entering again hands out, as the occupy channel's, the result of the scanned channel 5. */
  lemma RunTwiceReturnsForeign() returns (t: Adc)
    ensures Happens(Empty(), SETUP + [DoRun, DoRun], t)
    ensures Sized(t) && t.queue[MAX_CH].ch == 9 && t.queue[MAX_CH].value == Reading(100, Conversion(0, 5))
  {
    BorrowingState();
    var a := Borrowing();
    hide Borrowing;
    var b := OccupyRun(a);
    t := OccupyRun(b);
    assert Goes(a, DoRun, b) && Goes(b, DoRun, t);
    assert t.queue[MAX_CH].ch == 9 && t.queue[MAX_CH].value == Reading(100, Conversion(0, 5));
    hide *;
    LastStep(b, DoRun, t);
    Before(a, DoRun, b, [DoRun], t);
    assert [DoRun] + [DoRun] == [DoRun, DoRun];
    SetupHappens([DoRun, DoRun], t);
  }

  /** Entering twice: after run and exit, the scan stores the first occupy result in the slot of channel 5. */
  lemma EnterTwiceStoresForeign() returns (t: Adc)
    ensures Happens(Empty(), SETUP + [DoEnter(9), DoIsr(300), DoRun, DoExit, DoScan(0)], t)
    ensures Sized(t) && t.queue[0].ch == 5 && t.queue[0].value == Reading(200, Conversion(1, 9))
  {
    BorrowingState();
    var a := Borrowing();
    hide Borrowing, NextSlot;
    var b := EnterOccupy(a, 9);
    var c := Isr(b, 300);
    var d := OccupyRun(c);
    var e := ExitOccupy(d);
    assert Goes(a, DoEnter(9), b) && Goes(b, DoIsr(300), c) && Goes(c, DoRun, d) && Goes(d, DoExit, e);
    t := ForeignScan(e);
    hide *;
    LastStep(e, DoScan(0), t);
    Before(d, DoExit, e, [DoScan(0)], t);
    Before(c, DoRun, d, [DoExit] + [DoScan(0)], t);
    Before(b, DoIsr(300), c, [DoRun] + ([DoExit] + [DoScan(0)]), t);
    Before(a, DoEnter(9), b, [DoIsr(300)] + ([DoRun] + ([DoExit] + [DoScan(0)])), t);
    var run := [DoEnter(9), DoIsr(300), DoRun, DoExit, DoScan(0)];
    assert run == [DoEnter(9)] + ([DoIsr(300)] + ([DoRun] + ([DoExit] + [DoScan(0)])));
    SetupHappens(run, t);
  }

  /** The scan that stores what is in the result register in slot 0. */
  lemma ForeignScan(e: Adc) returns (t: Adc)
    requires Sized(e) && ScanActs(e) && e.flag == 1 && e.cur == 0 && !e.changeVbg
    ensures Goes(e, DoScan(0), t)
    ensures Sized(t) && t.queue[0].ch == e.queue[0].ch && t.queue[0].value == e.res
  {
    t := Scan(e, 0);
    hide NextSlot;
  }

  /** Leaving without taking the result: the scan stores the occupy result in the slot of channel 5. */
  lemma ExitUntakenStoresForeign() returns (t: Adc)
    ensures Happens(Empty(), SETUP + [DoExit, DoScan(0)], t)
    ensures Sized(t) && t.queue[0].ch == 5 && t.queue[0].value == Reading(200, Conversion(1, 9))
  {
    BorrowingState();
    var a := Borrowing();
    hide Borrowing, NextSlot;
    var e := ExitOccupy(a);
    assert Goes(a, DoExit, e);
    t := ForeignScan(e);
    hide *;
    LastStep(e, DoScan(0), t);
    Before(a, DoExit, e, [DoScan(0)], t);
    assert [DoExit] + [DoScan(0)] == [DoExit, DoScan(0)];
    SetupHappens([DoExit, DoScan(0)], t);
  }

  // Channel 5's slot is freed while its conversion runs, and given to channel 6.

  const GIVE_AWAY := [DoAdd(5), DoScan(0), DoRemove(5), DoAdd(6), DoIsr(100), DoScan(0)]

  function Given(): Adc {
    AddChannel(RemoveChannel(Scan(AddChannel(Empty(), 5), 0), 5), 6)
  }

  lemma GivenState()
    ensures var a := AddChannel(Empty(), 5);
      Goes(Empty(), DoAdd(5), a) && Goes(a, DoScan(0), Scan(a, 0)) && Scan(a, 0).queue == a.queue
    ensures var b := Scan(AddChannel(Empty(), 5), 0);
      && Goes(b, DoRemove(5), RemoveChannel(b, 5)) && Goes(RemoveChannel(b, 5), DoAdd(6), Given())
    ensures var s := Given();
      && s.flag == 1 && s.cur == 0 && s.busy && !s.changeVbg && !Occupied(s)
      && s.hw == Conversion(0, 5) && s.queue[0] == Slot(6, Reading(1, Unconverted), 0, 0)
  {
    var e := Empty();
    var a := AddChannel(e, 5);
    assert a.queue[0] == Slot(5, Reading(1, Unconverted), 0, 0) && FindSlot(e.queue, 5, 0) == 0;
    assert forall i :: 1 <= i <= MAX_CH ==> a.queue[i].ch == NO_CH;
    assert Selected(a) == 0;
    var b := Scan(a, 0);
    assert b.queue == a.queue && b.flag == 1 && b.cur == 0 && b.busy && b.hw == Conversion(0, 5);
    assert FindChannel(b.queue, 5, 0) == 0;
    hide NextSlot, Scan;
    var c := RemoveChannel(b, 5);
    assert c.queue[0].ch == NO_CH && FindSlot(c.queue, 6, 0) == 0;
  }

  lemma IsrGoes(s: Adc, raw: nat)
    requires Sized(s) && s.busy && raw < PENDING
    ensures Goes(s, DoIsr(raw), Isr(s, raw))
  {
  }

  /** Giving the slot away: the scan stores the conversion of channel 5 in the slot of channel 6. */
  lemma AddGivenAwayStoresForeign() returns (t: Adc)
    ensures Happens(Empty(), GIVE_AWAY, t)
    ensures Sized(t) && t.queue[0].ch == 6 && t.queue[0].value == Reading(100, Conversion(0, 5))
  {
    hide AddChannel, RemoveChannel, Scan, Given, Next, Happens;
    GivenState();
    var a := AddChannel(Empty(), 5);
    var b := Scan(a, 0);
    var c := RemoveChannel(b, 5);
    var d := Given();
    var e := Isr(d, 100);
    assert Goes(d, DoIsr(100), e) by {
      IsrGoes(d, 100);
    }
    t := ForeignScan(e);
    hide *;
    LastStep(e, DoScan(0), t);
    Before(d, DoIsr(100), e, [DoScan(0)], t);
    Before(c, DoAdd(6), d, [DoIsr(100)] + [DoScan(0)], t);
    Before(b, DoRemove(5), c, [DoAdd(6)] + ([DoIsr(100)] + [DoScan(0)]), t);
    Before(a, DoScan(0), b, [DoRemove(5)] + ([DoAdd(6)] + ([DoIsr(100)] + [DoScan(0)])), t);
    Before(Empty(), DoAdd(5), a, [DoScan(0)] + ([DoRemove(5)] + ([DoAdd(6)] + ([DoIsr(100)] + [DoScan(0)]))), t);
    assert GIVE_AWAY == [DoAdd(5)] + ([DoScan(0)] + ([DoRemove(5)] + ([DoAdd(6)] + ([DoIsr(100)] + [DoScan(0)]))));
  }

  // ---------- fairness ----------

  /** A scan that gets past collecting: the converter is free and no reference conversion is asked for. */
  predicate Productive(s: Adc, t: Step)
    requires Sized(s)
  {
    t.DoScan? && ScanActs(s) && !s.changeVbg
  }

  /** The slots a run's productive scans select, in order. */
  ghost function Turns(s: Adc, run: seq<Step>): seq<nat>
    requires Sized(s)
    decreases |run|
  {
    if run == [] || !Sized(Next(s, run[0])) then []
    else (if Productive(s, run[0]) then [Next(s, run[0]).cur] else []) + Turns(Next(s, run[0]), run[1..])
  }

  /** Scans at most needed to come round from `cur` to `i`. */
  function Away(cur: nat, i: nat): int {
    if cur < i then i - cur else MAX_CH - cur + i
  }

  lemma NextIsCloser(queue: seq<Slot>, cur: nat, i: nat)
    requires |queue| == MAX_CH + 1 && cur < MAX_CH && i < MAX_CH && queue[i].ch != NO_CH
    ensures var n := NextSlot(queue, cur + 1);
      n == i || Away(n, i) < Away(cur, i)
  {
  }

  /** The slots of the queue keep their channels. */
  ghost predicate FixedQueue(run: seq<Step>) {
    forall t :: t in run ==> !t.DoAdd? && !t.DoRemove?
  }

  /** A productive scan moves on to the next occupied slot; every other step leaves the position alone. */
  lemma StepMoves(s: Adc, t: Step)
    requires Sized(s) && Enabled(s, t) && !t.DoAdd? && !t.DoRemove?
    ensures Sized(Next(s, t))
    ensures Next(s, t).cur == if Productive(s, t) then NextSlot(s.queue, s.cur + 1) else s.cur
    ensures forall i :: 0 <= i < MAX_CH ==> Next(s, t).queue[i].ch == s.queue[i].ch
  {
    if t.DoScan? && ScanActs(s) {
      ScanMoves(s, t.now);
      hide Scan;
    }
  }

  lemma ScanMoves(s: Adc, now: nat)
    requires Sized(s) && ScanActs(s)
    ensures var d := Scan(s, now);
      && Sized(d)
      && d.cur == (if s.changeVbg then s.cur else NextSlot(s.queue, s.cur + 1))
      && forall i :: 0 <= i <= MAX_CH ==> d.queue[i].ch == s.queue[i].ch
  {
    SameChannels(s.queue, Collect(s).queue, s.cur + 1);
    hide NextSlot;
  }

  /** Slot search looks at channels only. */
  lemma {:induction false} SameChannels(q: seq<Slot>, r: seq<Slot>, i: nat)
    requires |q| == |r| == MAX_CH + 1 && 1 <= i <= MAX_CH
    requires forall j :: 0 <= j <= MAX_CH ==> q[j].ch == r[j].ch
    ensures NextSlot(q, i) == NextSlot(r, i)
    decreases MAX_CH - i
  {
    if i < MAX_CH {
      SameChannels(q, r, i + 1);
    }
  }

  lemma TurnsStep(s: Adc, run: seq<Step>)
    requires Sized(s) && run != [] && Sized(Next(s, run[0]))
    ensures var rest := Turns(Next(s, run[0]), run[1..]);
      Turns(s, run) == if Productive(s, run[0]) then [Next(s, run[0]).cur] + rest else rest
  {
    hide Next, Productive;
  }

  /** MAIN: over any run that leaves the channels alone, every occupied slot is selected within MAX_CH productive scans. */
  lemma {:induction false} SlotIsServed(s: Adc, run: seq<Step>, t: Adc, i: nat)
    requires Sized(s) && Happens(s, run, t) && FixedQueue(run)
    requires i < MAX_CH && s.queue[i].ch != NO_CH
    requires |Turns(s, run)| >= Away(s.cur, i)
    ensures Away(s.cur, i) <= MAX_CH
    ensures exists k :: 0 <= k < Away(s.cur, i) && Turns(s, run)[k] == i
    decreases |run|
  {
    if run != [] {
      var step, d := run[0], Next(s, run[0]);
      StepMoves(s, step);
      NextIsCloser(s.queue, s.cur, i);
      assert Happens(d, run[1..], t) && FixedQueue(run[1..]);
      TurnsStep(s, run);
      assert 0 < Away(s.cur, i) <= MAX_CH;
      hide *;
      var rest := Turns(d, run[1..]);
      if Productive(s, step) {
        if d.cur == i {
          assert Turns(s, run)[0] == i;
        } else {
          SlotIsServed(d, run[1..], t, i);
          var k :| 0 <= k < Away(d.cur, i) && rest[k] == i;
          assert Turns(s, run)[k + 1] == i;
        }
      } else {
        SlotIsServed(d, run[1..], t, i);
      }
    }
  }
}
