/** The clock-demand table as a set of active types, and the frequency it asks for. */
module ClockDemand {
  import opened CInt

  const SLOTS := 10
  const TYPES := 255
  const CLOCK_TB := [24, 32, 48, 60, 80, 96, 120, 160, 192]

  /** A row of the board's clock list. */
  datatype ClockType = ClockType(id: nat, clock: nat)

  // ---------- the board's clock list ----------

  /** All rows of a type count; the source does not stop at the first. */
  function TypeClock(list: seq<ClockType>, t: nat): nat {
    if list == [] then 0
    else
      var last := list[|list| - 1];
      TypeClock(list[..|list| - 1], t) + if last.id == t then last.clock else 0
  }

  /** The first row of an idle type decides, with 24 for an unlisted type. */
  function IdleClock(list: seq<ClockType>, t: nat): nat {
    if list == [] then 24 else if list[0].id == t then U8(list[0].clock) else IdleClock(list[1..], t)
  }

  /** A type the list has in one row asks for that row's clock, one it does not have for nothing. */
  lemma {:induction false} TypeClockIs(list: seq<ClockType>, t: nat)
    ensures (forall k :: 0 <= k < |list| ==> list[k].id != t) ==> TypeClock(list, t) == 0
    ensures forall i :: 0 <= i < |list| && list[i].id == t && (forall k :: 0 <= k < |list| && k != i ==> list[k].id != t) ==>
      TypeClock(list, t) == list[i].clock
    decreases |list|
  {
    if list != [] {
      var init := list[..|list| - 1];
      TypeClockIs(init, t);
      assert forall k :: 0 <= k < |init| ==> init[k] == list[k];
    }
  }

  /** An idle type asks for the clock of its first row, in 8 bits, and for 24 if it has none. */
  lemma {:induction false} IdleClockIs(list: seq<ClockType>, t: nat)
    ensures (forall k :: 0 <= k < |list| ==> list[k].id != t) ==> IdleClock(list, t) == 24
    ensures forall i :: 0 <= i < |list| && list[i].id == t && (forall k :: 0 <= k < i ==> list[k].id != t) ==>
      IdleClock(list, t) == list[i].clock % 256
    decreases |list|
  {
    if list != [] {
      var rest := list[1..];
      IdleClockIs(rest, t);
      assert forall k :: 0 <= k < |rest| ==> rest[k] == list[k + 1];
    }
  }

  /** Every type asks for less than 256 in all. */
  ghost predicate Modest(list: seq<ClockType>) {
    forall t :: TypeClock(list, t) < TWO8
  }

  // ---------- the slot table ----------

  function IndexOf(slots: seq<nat>, t: nat): (i: nat)
    ensures i <= |slots|
    ensures i < |slots| ==> slots[i] == t
    ensures forall k :: 0 <= k < i ==> slots[k] != t
  {
    if slots == [] then 0 else if slots[0] == t then 0 else 1 + IndexOf(slots[1..], t)
  }

  function Push(slots: seq<nat>, t: nat): (seq<nat>, bool) {
    var i := IndexOf(slots, 0);
    if t in slots || i == |slots| then (slots, false) else (slots[i := t], true)
  }

  function Pop(slots: seq<nat>, t: nat): (seq<nat>, bool) {
    var i := IndexOf(slots, t);
    if i == |slots| then (slots, false) else (slots[i := 0], true)
  }

  /** No type is in two slots. */
  ghost predicate Distinct(slots: seq<nat>) {
    forall i, j :: 0 <= i < j < |slots| && slots[i] != 0 ==> slots[i] != slots[j]
  }

  ghost function Active(slots: seq<nat>): set<nat> {
    set t | t in slots && t != 0
  }

  ghost predicate Table(slots: seq<nat>) {
    |slots| == SLOTS && Distinct(slots) && forall i :: 0 <= i < |slots| ==> slots[i] <= TYPES
  }

  lemma ActiveStep(slots: seq<nat>)
    requires slots != [] && Distinct(slots)
    ensures var init, t := slots[..|slots| - 1], slots[|slots| - 1];
      && Distinct(init) && Active(slots) == Active(init) + (if t == 0 then {} else {t}) && (t != 0 ==> t !in Active(init))
  {
    var init, t := slots[..|slots| - 1], slots[|slots| - 1];
    assert slots == init + [t];
  }

  lemma SnocHolds(slots: seq<nat>, init: seq<nat>, t: nat)
    requires slots == init + [t]
    ensures 0 in slots <==> t == 0 || 0 in init
  {
  }

  lemma OneMoreType(s: set<nat>, t: nat)
    requires t !in s
    ensures |s + {t}| == |s| + 1
  {
  }

  /** A table with a free slot holds fewer types than slots, and only such a table. */
  lemma {:induction false} FreeSlots(slots: seq<nat>)
    requires Distinct(slots)
    ensures |Active(slots)| <= |slots|
    ensures 0 in slots <==> |Active(slots)| < |slots|
    decreases |slots|
  {
    if slots != [] {
      var init, t := slots[..|slots| - 1], slots[|slots| - 1];
      assert slots == init + [t];
      ActiveStep(slots);
      hide Distinct, Active;
      FreeSlots(init);
      SnocHolds(slots, init, t);
      if t != 0 {
        OneMoreType(Active(init), t);
      } else {
        assert Active(init) + {} == Active(init);
      }
    }
  }

  /** What the table means: a set of at most ten types. */
  function SetAdd(s: set<nat>, t: nat): set<nat> {
    if t == 0 || |s| >= SLOTS then s else s + {t}
  }

  lemma FillSlot(slots: seq<nat>, i: nat, t: nat)
    requires i < |slots| && slots[i] == 0
    ensures Active(slots[i := t]) == Active(slots) + if t == 0 then {} else {t}
  {
    var next := slots[i := t];
    assert next[i] == t;
    forall x | x in Active(slots)
      ensures x in next
    {
      var k :| 0 <= k < |slots| && slots[k] == x;
      assert next[k] == x;
    }
  }

  lemma PushIsSetAdd(slots: seq<nat>, t: nat)
    requires Table(slots) && t <= TYPES
    ensures Table(Push(slots, t).0)
    ensures Active(Push(slots, t).0) == SetAdd(Active(slots), t)
    ensures Push(slots, t).1 <==> t != 0 && t !in Active(slots) && |Active(slots)| < 10
  {
    FreeSlots(slots);
    var i := IndexOf(slots, 0);
    if t !in slots && i < |slots| {
      FillSlot(slots, i, t);
      assert t != 0 by {
        assert slots[i] == 0;
      }
    } else if t in slots && t != 0 {
      assert Active(slots) + {t} == Active(slots);
    }
  }

  lemma PopIsSetRemove(slots: seq<nat>, t: nat)
    requires Table(slots)
    ensures Table(Pop(slots, t).0)
    ensures Active(Pop(slots, t).0) == Active(slots) - {t}
    ensures t != 0 ==> (Pop(slots, t).1 <==> t in Active(slots))
  {
    var i := IndexOf(slots, t);
    if i < |slots| && t != 0 {
      var next := slots[i := 0];
      assert forall x :: x in Active(slots) && x != t ==> x in next by {
        forall x | x in Active(slots) && x != t
          ensures x in next
        {
          var k :| 0 <= k < |slots| && slots[k] == x;
          assert next[k] == x;
        }
      }
      assert Active(next) == Active(slots) - {t};
    } else if i < |slots| {
      assert slots[i := 0] == slots;
    }
  }

  // ---------- the frequency ----------

  function Total(list: seq<ClockType>, slots: seq<nat>): nat {
    if slots == [] then 0
    else
      var t := slots[|slots| - 1];
      Total(list, slots[..|slots| - 1]) + if t != 0 then TypeClock(list, t) else 0
  }

  function ExtClock(list: seq<ClockType>, slots: seq<nat>): nat {
    U16(U32(Total(list, slots)))
  }

  function MatchFrom(clk: nat, i: nat): nat
    requires i < |CLOCK_TB|
    decreases |CLOCK_TB| - i
  {
    if clk <= CLOCK_TB[i] || i == |CLOCK_TB| - 1 then CLOCK_TB[i] else MatchFrom(clk, i + 1)
  }

  /** The system clock in MHz for a slot table and an idle type. */
  function Frequency(list: seq<ClockType>, slots: seq<nat>, idle: nat): nat {
    MatchFrom(U16(U32(IdleClock(list, idle) + ExtClock(list, slots))), 0)
  }

  /** The frequencies the chip has. */
  predicate IsStep(f: nat) {
    f in {24, 32, 48, 60, 80, 96, 120, 160, 192}
  }

  lemma FrequencyUnfolds(list: seq<ClockType>, slots: seq<nat>, idle: nat)
    ensures Frequency(list, slots, idle) == MatchFrom(U16(U32(IdleClock(list, idle) + U16(U32(Total(list, slots))))), 0)
  {
    hide U16, U32, IdleClock, Total, MatchFrom;
  }

  lemma SmallU16(x: nat)
    requires x < TWO16
    ensures U16(x) == x
  {
  }

  lemma FrequencyIs(list: seq<ClockType>, slots: seq<nat>, idle: nat)
    requires IdleClock(list, idle) + Total(list, slots) < TWO16
    ensures Frequency(list, slots, idle) == MatchFrom(IdleClock(list, idle) + Total(list, slots), 0)
  {
    hide U16, U32, IdleClock, Total, MatchFrom, Frequency;
    FrequencyUnfolds(list, slots, idle);
    CutTwice(IdleClock(list, idle), Total(list, slots));
    SmallU16(IdleClock(list, idle) + Total(list, slots));
  }

  /** While the sum fits 16 bits the frequency is the least of the chip's steps that covers it, or the greatest. */
  lemma FrequencySteps(list: seq<ClockType>, slots: seq<nat>, idle: nat)
    requires IdleClock(list, idle) + Total(list, slots) < TWO16
    ensures var f := Frequency(list, slots, idle);
      var need := IdleClock(list, idle) + Total(list, slots);
      IsStep(f) && if need <= 192 then need <= f && forall g :: IsStep(g) && need <= g ==> f <= g else f == 192
  {
    hide IdleClock, Total, MatchFrom, Frequency, IsStep;
    var need := IdleClock(list, idle) + Total(list, slots);
    FrequencyIs(list, slots, idle);
    StepFor(need);
    LeastStep(need, MatchFrom(need, 0));
  }

  lemma LeastStep(x: nat, f: nat)
    requires f ==
      if x <= 24 then 24 else if x <= 32 then 32 else if x <= 48 then 48 else if x <= 60 then 60 else if x <= 80 then 80
      else if x <= 96 then 96 else if x <= 120 then 120 else if x <= 160 then 160 else 192
    ensures IsStep(f) && if x <= 192 then x <= f && forall g :: IsStep(g) && x <= g ==> f <= g else f == 192
  {
  }

  lemma StepFor(x: nat)
    ensures MatchFrom(x, 0) ==
      if x <= 24 then 24 else if x <= 32 then 32 else if x <= 48 then 48 else if x <= 60 then 60 else if x <= 80 then 80
      else if x <= 96 then 96 else if x <= 120 then 120 else if x <= 160 then 160 else 192
  {
    MatchStep(x, 0);
    MatchStep(x, 1);
    MatchStep(x, 2);
    MatchStep(x, 3);
    MatchStep(x, 4);
    MatchStep(x, 5);
    MatchStep(x, 6);
    MatchStep(x, 7);
    MatchStep(x, 8);
    hide MatchFrom;
  }

  lemma MatchStep(x: nat, i: nat)
    requires i < |CLOCK_TB|
    ensures MatchFrom(x, i) == if x <= CLOCK_TB[i] || i == |CLOCK_TB| - 1 then CLOCK_TB[i] else MatchFrom(x, i + 1)
  {
  }

  /** Sum of the clocks of the types 1 .. n that are in a set. */
  ghost function Demand(list: seq<ClockType>, s: set<nat>, n: nat): nat {
    if n == 0 then 0 else Demand(list, s, n - 1) + if n in s then TypeClock(list, n) else 0
  }

  ghost function Wanted(list: seq<ClockType>, s: set<nat>): nat {
    Demand(list, s, TYPES)
  }

  /** What the idle type and the active types ask for together. */
  ghost function Need(list: seq<ClockType>, s: set<nat>, idle: nat): nat {
    IdleClock(list, idle) + Wanted(list, s)
  }

  lemma {:induction false} DemandOfOneMore(list: seq<ClockType>, s: set<nat>, t: nat, n: nat)
    requires 0 < t && t !in s
    ensures Demand(list, s + {t}, n) == Demand(list, s, n) + if t <= n then TypeClock(list, t) else 0
    decreases n
  {
    if n > 0 {
      DemandOfOneMore(list, s, t, n - 1);
    }
  }

  lemma {:induction false} DemandOfNone(list: seq<ClockType>, n: nat)
    ensures Demand(list, {}, n) == 0
    decreases n
  {
    if n > 0 {
      DemandOfNone(list, n - 1);
    }
  }

  /** The sum over the slots is the sum over the set, whatever the slots' order. */
  lemma {:induction false} TotalIsDemand(list: seq<ClockType>, slots: seq<nat>)
    requires Distinct(slots) && forall i :: 0 <= i < |slots| ==> slots[i] <= TYPES
    ensures Total(list, slots) == Wanted(list, Active(slots))
    decreases |slots|
  {
    if slots == [] {
      assert Active(slots) == {};
      DemandOfNone(list, TYPES);
    } else {
      var init, t := slots[..|slots| - 1], slots[|slots| - 1];
      ActiveStep(slots);
      TotalIsDemand(list, init);
      if t != 0 {
        DemandOfOneMore(list, Active(init), t, TYPES);
      } else {
        assert Active(slots) == Active(init);
      }
    }
  }

  lemma {:induction false} TotalBounded(list: seq<ClockType>, slots: seq<nat>)
    requires Modest(list)
    ensures Total(list, slots) <= |slots| * 255
    decreases |slots|
  {
    if slots != [] {
      TotalBounded(list, slots[..|slots| - 1]);
    }
  }

  lemma {:induction false} IdleFits(list: seq<ClockType>, t: nat)
    ensures IdleClock(list, t) < TWO8
    decreases |list|
  {
    if list != [] {
      IdleFits(list[1..], t);
    }
  }

  /** `f` is the least table entry that covers `clk`, or the last one if none does. */
  ghost predicate Covers(f: nat, clk: nat) {
    && f in CLOCK_TB
    && (clk <= 192 ==> clk <= f && forall x :: x in CLOCK_TB && clk <= x ==> f <= x)
    && (clk > 192 ==> f == 192)
  }

  lemma {:induction false} MatchCovers(clk: nat, i: nat)
    requires i < |CLOCK_TB| && forall k :: 0 <= k < i ==> CLOCK_TB[k] < clk
    ensures Covers(MatchFrom(clk, i), clk)
    decreases |CLOCK_TB| - i
  {
    if !(clk <= CLOCK_TB[i] || i == |CLOCK_TB| - 1) {
      MatchCovers(clk, i + 1);
    }
  }

  /** The clock to match is the need modulo 2^16, whatever is cut on the way. */
  lemma FrequencyOfNeed(list: seq<ClockType>, slots: seq<nat>, idle: nat)
    requires Table(slots)
    ensures Frequency(list, slots, idle) == MatchFrom(U16(Need(list, Active(slots), idle)), 0)
  {
    TotalIsDemand(list, slots);
    hide Total, Wanted, Active, IdleClock, Distinct, MatchFrom;
    CutTwice(IdleClock(list, idle), Total(list, slots));
  }

  lemma CutTwice(a: nat, b: nat)
    ensures U16(U32(a + U16(U32(b)))) == U16(a + b)
  {
    hide U16, U32;
    Cut(b);
    Cut(a + U16(b));
    CutPart(a, b);
  }

  lemma CutPart(a: nat, b: nat)
    ensures U16(a + U16(b)) == U16(a + b)
  {
    var q := b / TWO16;
    assert a + b == a + U16(b) + q * TWO16;
  }

  lemma Cut(x: nat)
    ensures U16(U32(x)) == U16(x)
  {
  }

  lemma {:induction false} MatchTop(clk: nat, i: nat)
    requires i < |CLOCK_TB|
    ensures MatchFrom(clk, i) == 192 <==> clk > 160 || i == |CLOCK_TB| - 1
    decreases |CLOCK_TB| - i
  {
    if i < |CLOCK_TB| - 1 {
      MatchTop(clk, i + 1);
    }
  }

  /**
   MAIN: the frequency is the least of the table that covers idle clock plus active clocks, or 192, exactly when
   that need fits 16 bits or what is left of it there still asks for the top of the table.
   */
  lemma FrequencyCoversIff(list: seq<ClockType>, slots: seq<nat>, idle: nat)
    requires Table(slots)
    ensures var need := Need(list, Active(slots), idle);
      Covers(Frequency(list, slots, idle), need) <==> need < TWO16 || U16(need) > 160
  {
    FrequencyOfNeed(list, slots, idle);
    var need := Need(list, Active(slots), idle);
    assert need < TWO16 ==> U16(need) == need;
    hide Need, Active, Frequency, Table, MatchFrom, U16;
    MatchCovers(U16(need), 0);
    MatchTop(U16(need), 0);
  }

  /** With every type below 256 MHz, as in the shipped list, any ten types fit. */
  lemma ModestFits(list: seq<ClockType>, slots: seq<nat>, idle: nat)
    requires Modest(list) && Table(slots)
    ensures Need(list, Active(slots), idle) < TWO16
  {
    TotalIsDemand(list, slots);
    TotalBounded(list, slots);
    IdleFits(list, idle);
    hide Total, Wanted, Active, IdleClock, Modest, Distinct;
  }

  lemma {:induction false} MatchMonotone(a: nat, b: nat, i: nat)
    requires a <= b && i < |CLOCK_TB|
    ensures MatchFrom(a, i) <= MatchFrom(b, i)
    decreases |CLOCK_TB| - i
  {
    assert i < |CLOCK_TB| - 1 ==> CLOCK_TB[i] < CLOCK_TB[i + 1];
    if i < |CLOCK_TB| - 1 {
      MatchMonotone(a, b, i + 1);
      MatchAbove(b, i + 1);
    }
  }

  lemma {:induction false} MatchAbove(b: nat, i: nat)
    requires i < |CLOCK_TB|
    ensures MatchFrom(b, i) >= CLOCK_TB[i]
    decreases |CLOCK_TB| - i
  {
    if i < |CLOCK_TB| - 1 {
      MatchAbove(b, i + 1);
    }
  }

  // ---------- runs ----------

  datatype Op = Add(kind: nat) | Remove(kind: nat) | Idle(kind: nat)

  /** Slot table, idle type and the frequency last programmed. */
  datatype Clocks = Clocks(slots: seq<nat>, idle: nat, sys: nat)

  function Step(list: seq<ClockType>, c: Clocks, op: Op): Clocks {
    match op
    case Add(t) =>
      var (slots, ok) := Push(c.slots, U8(t));
      if ok then Clocks(slots, c.idle, Frequency(list, slots, c.idle)) else c
    case Remove(t) =>
      var (slots, ok) := Pop(c.slots, U8(t));
      if ok then Clocks(slots, c.idle, Frequency(list, slots, c.idle)) else c
    case Idle(t) => Clocks(c.slots, t, Frequency(list, c.slots, t))
  }

  function Steps(list: seq<ClockType>, c: Clocks, ops: seq<Op>): Clocks {
    if ops == [] then c else Step(list, Steps(list, c, ops[..|ops| - 1]), ops[|ops| - 1])
  }

  function SetStep(s: set<nat>, op: Op): set<nat> {
    match op
    case Add(t) => SetAdd(s, U8(t))
    case Remove(t) => s - {U8(t)}
    case Idle(_) => s
  }

  function SetSteps(s: set<nat>, ops: seq<Op>): set<nat> {
    if ops == [] then s else SetStep(SetSteps(s, ops[..|ops| - 1]), ops[|ops| - 1])
  }

  function LastIdle(idle: nat, ops: seq<Op>): nat {
    if ops == [] then idle
    else if ops[|ops| - 1].Idle? then ops[|ops| - 1].kind
    else LastIdle(idle, ops[..|ops| - 1])
  }

  /** The programmed frequency is the one the table asks for. */
  ghost predicate Settled(list: seq<ClockType>, c: Clocks) {
    Table(c.slots) && c.sys == Frequency(list, c.slots, c.idle)
  }

  /** MAIN: over any run the table is the set of active types and the frequency programmed is the one that set asks for. */
  lemma {:induction false} RunIsSet(list: seq<ClockType>, c: Clocks, ops: seq<Op>)
    requires Settled(list, c)
    ensures var d := Steps(list, c, ops);
      && Settled(list, d)
      && Active(d.slots) == SetSteps(Active(c.slots), ops)
      && d.idle == LastIdle(c.idle, ops)
      && d.sys == MatchFrom(U16(Need(list, SetSteps(Active(c.slots), ops), d.idle)), 0)
    decreases |ops|
  {
    var d := Steps(list, c, ops);
    if ops != [] {
      var before := Steps(list, c, ops[..|ops| - 1]);
      var op := ops[|ops| - 1];
      RunIsSet(list, c, ops[..|ops| - 1]);
      StepIsSet(list, before, op);
    }
    FrequencyOfNeed(list, d.slots, d.idle);
  }

  lemma StepIsSet(list: seq<ClockType>, c: Clocks, op: Op)
    requires Settled(list, c)
    ensures Settled(list, Step(list, c, op))
    ensures Active(Step(list, c, op).slots) == SetStep(Active(c.slots), op)
  {
    hide Frequency, Table, Active, Push, Pop, SetAdd;
    match op
    case Add(t) =>
      PushIsSetAdd(c.slots, U8(t));
      UnchangedWhenRefused(c.slots, U8(t));
    case Remove(t) =>
      PopIsSetRemove(c.slots, U8(t));
      UnchangedWhenRefused(c.slots, U8(t));
    case Idle(_) =>
  }

  lemma UnchangedWhenRefused(slots: seq<nat>, t: nat)
    ensures !Push(slots, t).1 ==> Push(slots, t).0 == slots
    ensures !Pop(slots, t).1 ==> Pop(slots, t).0 == slots
  {
  }

  lemma DemandAfterAdd(list: seq<ClockType>, s: set<nat>, t: nat)
    ensures Wanted(list, SetAdd(s, t)) >= Wanted(list, s)
  {
    if t != 0 && t !in s {
      DemandOfOneMore(list, s, t, TYPES);
    } else {
      assert t != 0 ==> s + {t} == s;
    }
  }

  /** A larger demand that fits is never served by a lower frequency. */
  lemma FrequencyMonotone(list: seq<ClockType>, slots: seq<nat>, more: seq<nat>, idle: nat)
    requires Table(slots) && Table(more)
    requires Wanted(list, Active(slots)) <= Wanted(list, Active(more)) && Need(list, Active(more), idle) < TWO16
    ensures Frequency(list, slots, idle) <= Frequency(list, more, idle)
  {
    hide Wanted, Active, IdleClock, Table, MatchFrom, Frequency;
    FrequencyOfNeed(list, slots, idle);
    FrequencyOfNeed(list, more, idle);
    MatchMonotone(Need(list, Active(slots), idle), Need(list, Active(more), idle), 0);
  }

  /** Adding never lowers the frequency as long as the need still fits 16 bits. */
  lemma AddNeverLowers(list: seq<ClockType>, c: Clocks, t: nat)
    requires Settled(list, c) && Need(list, SetAdd(Active(c.slots), U8(t)), c.idle) < TWO16
    ensures Step(list, c, Add(t)).sys >= c.sys
  {
    hide Wanted, Active, Table, Frequency, Push, SetAdd, Need;
    StepIsSet(list, c, Add(t));
    DemandAfterAdd(list, Active(c.slots), U8(t));
    FrequencyMonotone(list, c.slots, Step(list, c, Add(t)).slots, c.idle);
  }

  ghost function Added(ops: seq<Op>): set<nat> {
    if ops == [] then {} else Added(ops[..|ops| - 1]) + {U8(ops[|ops| - 1].kind)}
  }

  /** Any order of adds that fit gives the union. */
  lemma {:induction false} AddsInAnyOrder(s: set<nat>, ops: seq<Op>)
    requires forall i :: 0 <= i < |ops| ==> ops[i].Add? && U8(ops[i].kind) != 0
    requires |s + Added(ops)| <= SLOTS
    ensures SetSteps(s, ops) == s + Added(ops)
    decreases |ops|
  {
    if ops != [] {
      var init := ops[..|ops| - 1];
      SubsetIsSmaller(s + Added(init), s + Added(ops));
      AddsInAnyOrder(s, init);
      if |s + Added(init)| >= SLOTS {
        SameSize(s + Added(init), s + Added(ops));
      }
    }
  }

  lemma {:induction false} SubsetIsSmaller(a: set<nat>, b: set<nat>)
    requires a <= b
    ensures |a| <= |b|
    decreases a
  {
    if x :| x in a {
      SubsetIsSmaller(a - {x}, b - {x});
    }
  }

  lemma SameSize(a: set<nat>, b: set<nat>)
    requires a <= b && |a| >= |b|
    ensures a == b
  {
    if x :| x in b && x !in a {
      SubsetIsSmaller(a, b - {x});
      assert false;
    }
  }

  /** MAIN: add then remove restores the table exactly when the type was not already active. */
  lemma AddRemoveRestoresIff(slots: seq<nat>, t: nat)
    requires Table(slots) && t <= TYPES
    ensures Pop(Push(slots, t).0, t).0 == slots <==> t == 0 || t !in Active(slots)
  {
    var (next, ok) := Push(slots, t);
    var i := IndexOf(next, t);
    if t == 0 {
      if i < |next| {
        assert slots[i := 0] == slots;
      }
    } else if t in slots {
      assert Pop(slots, t).0[i] != slots[i];
    } else if ok {
      var k := IndexOf(slots, 0);
      assert next[k] == t && i == k;
      assert next[k := 0] == slots;
    }
  }
}
