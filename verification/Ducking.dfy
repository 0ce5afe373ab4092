/** Background ducking: opening a voice lowers the others, closing one brings them back. */
module Ducking {
  import opened CInt
  import opened Bits

  const VOL_MAX := 31

  const TABLE: seq<nat> := [
    0, 93, 111, 132, 158, 189, 226, 270, 323, 386, 462, 552, 660, 789, 943, 1127,
    1347, 1610, 1925, 2301, 2751, 3288, 3930, 4698, 5616, 6713, 8025, 9592, 11466, 15200, 16000, 16384]

  datatype Voice = Voice(vol: nat, volMax: nat, backup: int, target: nat)

  /** Table row for a volume, held in 8 bits; the source reads whatever lies at that row. */
  function Level(vol: nat, volMax: nat): nat
    requires volMax > 0
  {
    U8(vol * VOL_MAX / volMax)
  }

  lemma LevelInTable(vol: nat, volMax: nat)
    requires 0 < volMax && vol <= volMax
    ensures Level(vol, volMax) == vol * VOL_MAX / volMax < |TABLE|
  {
    var q := vol * VOL_MAX / volMax;
    assert q * volMax <= vol * VOL_MAX <= volMax * VOL_MAX;
    AtLeast(q, VOL_MAX + 1, volMax);
  }

  /** For any volume at all, the row lies in the table exactly when 31 * vol, taken modulo 256 * volMax, is below 32 * volMax. */
  lemma LevelInTableIff(vol: nat, volMax: nat)
    requires 0 < volMax
    ensures Level(vol, volMax) < |TABLE| <==> 31 * vol % (256 * volMax) < 32 * volMax
    ensures 31 * vol < 256 * volMax ==> (Level(vol, volMax) < |TABLE| <==> 31 * vol < 32 * volMax)
  {
    var x := 31 * vol;
    QuotientTwice(x, volMax);
    RowBelow(x / volMax % 256, x % volMax, volMax);
    if x < 256 * volMax {
      ModUnique(x, 0, x, 256 * volMax);
    }
  }

  /** The remainder modulo 256 * m, from the low byte of the quotient by m. */
  lemma QuotientTwice(x: nat, m: nat)
    requires m > 0
    ensures x % (256 * m) == x / m % 256 * m + x % m
  {
    var q, r := x / m, x % m;
    var a, b := q / 256, q % 256;
    assert x == q * m + r && q == 256 * a + b;
    WholeTurns(a, b, m);
    RowBelow(b, r, m);
    ModUnique(x, a, b * m + r, 256 * m);
  }

  lemma WholeTurns(a: nat, b: nat, m: nat)
    ensures (256 * a + b) * m == a * (256 * m) + b * m
  {
  }

  lemma RowBelow(b: nat, r: nat, m: nat)
    requires b < 256 && r < m
    ensures 0 <= b * m + r < 256 * m
    ensures b * m + r < 32 * m <==> b < 32
  {
    AtLeast(255, b, m);
    AtLeast(b, 32, m);
    AtLeast(31, b, m);
  }

  lemma AtLeast(q: nat, n: nat, m: nat)
    ensures q >= n ==> q * m >= n * m
  {
  }

  /** The row read for a volume lies in the table. */
  predicate InTable(vol: nat, volMax: nat) {
    0 < volMax && Level(vol, volMax) < |TABLE|
  }

  function Target(vol: nat, volMax: nat): nat
    requires InTable(vol, volMax)
  {
    TABLE[Level(vol, volMax)]
  }

  /** Volume and backup within the maximum, as the author means them to be. */
  predicate Valid(v: Voice) {
    && 0 < v.volMax && v.vol <= v.volMax
    && -1 <= v.backup <= v.volMax
    && (LevelInTable(v.vol, v.volMax); v.target == Target(v.vol, v.volMax))
  }

  /** Ducking the voice reads the table within its bounds. */
  predicate Duckable(v: Voice) {
    0 < v.volMax && (Cut(v.vol) > 0 ==> InTable(v.vol - Cut(v.vol), v.volMax))
  }

  /** So does bringing it back. */
  predicate Restorable(v: Voice) {
    0 < v.volMax && (v.backup >= 0 ==> InTable(v.backup, v.volMax))
  }

  lemma ValidReads(v: Voice)
    requires Valid(v)
    ensures Duckable(v) && Restorable(v)
  {
    LevelInTable(v.vol - Cut(v.vol), v.volMax);
    if v.backup >= 0 {
      LevelInTable(v.backup, v.volMax);
    }
    hide Level;
  }

  /** The volume last asked for, whether or not the voice is ducked now. */
  function Wanted(v: Voice): int {
    if v.backup >= 0 then v.backup else v.vol
  }

  function Open(vol: nat, volMax: nat): (v: Voice)
    requires 0 < volMax
    ensures Valid(v)
  {
    var x := if vol > volMax then volMax else vol;
    LevelInTable(x, volMax);
    Voice(x, volMax, -1, Target(x, volMax))
  }

  /** Steps down when another voice opens. */
  function Cut(vol: nat): (r: nat)
    ensures r <= vol && (vol < 6 <==> r == 0)
  {
    if vol >= 14 then 5 else if vol >= 10 then 3 else if vol >= 6 then 1 else 0
  }

  function Duck(v: Voice): (r: Voice)
    requires Duckable(v)
    ensures Valid(v) ==> Valid(r)
    ensures r.volMax == v.volMax
  {
    if Cut(v.vol) == 0 then v.(backup := -1)
    else v.(backup := v.vol, vol := v.vol - Cut(v.vol), target := Target(v.vol - Cut(v.vol), v.volMax))
  }

  function Restore(v: Voice): (r: Voice)
    requires Restorable(v)
    ensures Valid(v) ==> Valid(r)
    ensures r.volMax == v.volMax
  {
    if v.backup < 0 then v else v.(vol := v.backup, target := Target(v.backup, v.volMax), backup := -1)
  }

  function SetVol(v: Voice, vol: nat): Voice
    requires 0 < v.volMax
  {
    var x := if vol > v.volMax then v.volMax else vol;
    LevelInTable(x, v.volMax);
    v.(vol := x, backup := if v.backup != -1 then vol else -1, target := Target(x, v.volMax))
  }

  /** How far another voice lowers a volume: 5 from 14 on, 3 from 10 on, 1 from 6 on. */
  lemma DuckSteps(v: Voice)
    requires Valid(v)
    ensures Duckable(v)
    ensures var d := Duck(v);
      && (v.vol >= 14 ==> d.vol == v.vol - 5) && (10 <= v.vol < 14 ==> d.vol == v.vol - 3)
      && (6 <= v.vol < 10 ==> d.vol == v.vol - 1) && (v.vol < 6 ==> d.vol == v.vol)
      && d.backup == (if v.vol >= 6 then v.vol else -1)
  {
    ValidReads(v);
    hide Target, Level;
  }

  /** MAIN: a quieter voice stays no louder than another under ducking, except between volumes 9 and 10, and 13 and 14. */
  lemma DuckKeepsOrderIff(v: Voice, w: Voice)
    requires Valid(v) && Valid(w) && v.vol < w.vol
    ensures Duckable(v) && Duckable(w)
    ensures Duck(v).vol <= Duck(w).vol <==> !(v.vol == 9 && w.vol == 10) && !(v.vol == 13 && w.vol == 14)
  {
    DuckSteps(v);
    DuckSteps(w);
    hide Duck, Valid;
  }

  /** The table runs from silence to unity and never falls. */
  lemma TableRises(i: nat, j: nat)
    requires i < j < 32
    ensures |TABLE| == 32 && TABLE[0] == 0 && TABLE[31] == 16384 && TABLE[i] < TABLE[j]
    decreases j
  {
    assert TABLE[j - 1] < TABLE[j];
    if i < j - 1 {
      TableRises(i, j - 1);
    }
  }

  lemma RowsRise(x: nat, y: nat, m: nat)
    requires 0 < m && x <= y
    ensures x * 31 / m <= y * 31 / m
  {
    var a, b := x * 31, y * 31;
    assert a == a / m * m + a % m && b == b / m * m + b % m;
    AtLeast(a / m, b / m + 1, m);
    assert (b / m + 1) * m == b / m * m + m;
  }

  lemma LastRow(m: nat)
    requires 0 < m
    ensures m * 31 / m == 31
  {
    ModUnique(m * 31, 31, 0, m);
  }

  /** MAIN: volume 0 is silence, the maximum is unity gain, and a louder volume never has a smaller gain. */
  lemma GainRises(x: nat, y: nat, volMax: nat)
    requires 0 < volMax && x <= y <= volMax
    ensures InTable(x, volMax) && InTable(y, volMax) && InTable(0, volMax) && InTable(volMax, volMax)
    ensures Target(x, volMax) <= Target(y, volMax)
    ensures Target(0, volMax) == 0 && Target(volMax, volMax) == 16384
  {
    LevelInTable(x, volMax);
    LevelInTable(y, volMax);
    LevelInTable(0, volMax);
    LevelInTable(volMax, volMax);
    RowsRise(x, y, volMax);
    LastRow(volMax);
    assert 0 * 31 / volMax == 0;
    TableRises(0, 31);
    if Level(x, volMax) < Level(y, volMax) {
      TableRises(Level(x, volMax), Level(y, volMax));
    }
  }

  /** A request above the maximum leaves a ducked voice with a backup it must not go back to. */
  lemma SetKeepsValidIff(v: Voice, vol: nat)
    requires Valid(v)
    ensures Valid(SetVol(v, vol)) <==> vol <= v.volMax || v.backup == -1
  {
  }

  /** A request makes the restore read outside the table exactly when the voice is ducked and the row wraps out of it. */
  lemma RequestLeavesTableIff(v: Voice, vol: nat)
    requires Valid(v)
    ensures var r := SetVol(v, vol);
      r.backup >= 0 && Level(r.backup, r.volMax) >= |TABLE|
      <==> v.backup != -1 && 31 * vol % (256 * v.volMax) >= 32 * v.volMax
  {
    LevelInTableIff(vol, v.volMax);
  }

  function Sets(v: Voice, requests: seq<nat>): (r: Voice)
    requires 0 < v.volMax
    ensures r.volMax == v.volMax && (r.backup == -1 <==> v.backup == -1)
    decreases |requests|
  {
    if requests == [] then v else SetVol(Sets(v, requests[..|requests| - 1]), requests[|requests| - 1])
  }

  lemma {:induction false} SetsKeepValid(v: Voice, requests: seq<nat>)
    requires Valid(v) && forall k :: 0 <= k < |requests| ==> requests[k] <= v.volMax
    ensures Valid(Sets(v, requests))
    decreases |requests|
  {
    if requests != [] {
      SetsKeepValid(v, requests[..|requests| - 1]);
    }
  }

  lemma {:induction false} LastSetIsWanted(v: Voice, requests: seq<nat>)
    requires Valid(v) && forall k :: 0 <= k < |requests| ==> requests[k] <= v.volMax
    ensures var r := Sets(v, requests);
      Wanted(r) == if requests == [] then Wanted(v) else requests[|requests| - 1]
    decreases |requests|
  {
    if requests != [] {
      LastSetIsWanted(v, requests[..|requests| - 1]);
    }
  }

  /**
   MAIN: after any requests at all, in range or not, a voice brought back has a volume within its maximum
   exactly when it was not ducked or the last request was.
   */
  lemma {:induction false} RestoredWithinIff(v: Voice, requests: seq<nat>)
    requires Valid(v) && Restorable(Sets(v, requests))
    ensures Restore(Sets(v, requests)).vol <= v.volMax
      <==> v.backup == -1 || requests == [] || requests[|requests| - 1] <= v.volMax
  {
    hide Level;
    if requests != [] {
      var r := Sets(v, requests[..|requests| - 1]);
      assert Sets(v, requests) == SetVol(r, requests[|requests| - 1]);
    }
  }

  /** A voice opened, ducked, asked for one more than its maximum and brought back is one above it. */
  lemma RestoredAboveMax(vol: nat, volMax: nat)
    requires 6 <= vol <= volMax && VOL_MAX < volMax
    ensures Duckable(Open(vol, volMax))
    ensures var v := SetVol(Duck(Open(vol, volMax)), volMax + 1);
      Restorable(v) && Restore(v).vol == volMax + 1
  {
    ValidReads(Open(vol, volMax));
    LevelInTableIff(volMax + 1, volMax);
    hide Level;
  }

  /**
   MAIN: over one open ... close of another voice, a voice ends at its last requested volume exactly when
   something was requested meanwhile or it was at its requested volume when the other one opened.
   */
  lemma DuckingRestoresIff(v: Voice, requests: seq<nat>)
    requires Valid(v) && forall k :: 0 <= k < |requests| ==> requests[k] <= v.volMax
    ensures Duckable(v) && Restorable(Sets(Duck(v), requests))
    ensures var r := Restore(Sets(Duck(v), requests));
      && r.backup == -1 && Valid(r)
      && (r.vol == (if requests == [] then Wanted(v) else requests[|requests| - 1])
          <==> requests != [] || v.vol == Wanted(v))
  {
    ValidReads(v);
    SetsKeepValid(Duck(v), requests);
    ValidReads(Sets(Duck(v), requests));
    LastSetIsWanted(Duck(v), requests);
    hide Level;
    assert Wanted(Duck(v)) == v.vol;
  }

  /** Two nested opens: the second forgets the volume the first had set aside. */
  lemma NestedOpenForgets(v: Voice)
    requires Valid(v) && v.backup == -1 && v.vol >= 6
    ensures Duckable(v) && Duckable(Duck(v)) && Restorable(Duck(Duck(v))) && Restorable(Restore(Duck(Duck(v))))
    ensures Restore(Restore(Duck(Duck(v)))).vol < v.vol
  {
    ValidReads(v);
    ValidReads(Duck(v));
    ValidReads(Duck(Duck(v)));
    ValidReads(Restore(Duck(Duck(v))));
    hide Level;
  }

  // ---------- all voices together ----------

  datatype Op = OpenVoice(id: int, vol: nat, volMax: nat) | CloseVoice(id: int) | SetVoice(id: int, vol: nat)

  ghost predicate AllValid(m: map<int, Voice>) {
    forall i :: i in m ==> Valid(m[i])
  }

  ghost predicate Legal(m: map<int, Voice>, op: Op) {
    match op
    case OpenVoice(id, _, volMax) => id !in m && volMax > 0
    case CloseVoice(id) => id in m
    case SetVoice(id, vol) => id in m && vol <= m[id].volMax
  }

  lemma AllRead(m: map<int, Voice>)
    requires AllValid(m)
    ensures forall i :: i in m ==> Duckable(m[i]) && Restorable(m[i])
  {
    forall i | i in m
      ensures Duckable(m[i]) && Restorable(m[i])
    {
      ValidReads(m[i]);
    }
  }

  ghost function DuckAll(m: map<int, Voice>): (r: map<int, Voice>)
    requires AllValid(m)
    ensures r.Keys == m.Keys && forall i :: i in m ==> Duckable(m[i]) && r[i] == Duck(m[i])
  {
    AllRead(m);
    map i | i in m :: Duck(m[i])
  }

  ghost function RestoreAll(m: map<int, Voice>): (r: map<int, Voice>)
    requires AllValid(m)
    ensures r.Keys == m.Keys && forall i :: i in m ==> Restorable(m[i]) && r[i] == Restore(m[i])
  {
    AllRead(m);
    map i | i in m :: Restore(m[i])
  }

  ghost function Apply(m: map<int, Voice>, fadeOut: bool, op: Op): map<int, Voice>
    requires AllValid(m) && Legal(m, op)
  {
    match op
    case OpenVoice(id, vol, volMax) => (if fadeOut then DuckAll(m) else m)[id := Open(vol, volMax)]
    case CloseVoice(id) => RestoreAll(m) - {id}
    case SetVoice(id, vol) => m[id := SetVol(m[id], vol)]
  }

  /** Volumes requested of one voice by a run of sets. */
  function Requests(ops: seq<Op>, id: int): seq<nat> {
    if ops == [] then []
    else
      var op := ops[|ops| - 1];
      Requests(ops[..|ops| - 1], id) + if op.SetVoice? && op.id == id then [op.vol] else []
  }

  ghost predicate LegalSets(m: map<int, Voice>, ops: seq<Op>) {
    forall i :: 0 <= i < |ops| ==> ops[i].SetVoice? && Legal(m, ops[i])
  }

  ghost function ApplySets(m: map<int, Voice>, fadeOut: bool, ops: seq<Op>): (r: map<int, Voice>)
    requires AllValid(m) && LegalSets(m, ops)
    ensures AllValid(r) && r.Keys == m.Keys && forall i :: i in m ==> r[i].volMax == m[i].volMax
    decreases |ops|
  {
    if ops == [] then m else Apply(ApplySets(m, fadeOut, ops[..|ops| - 1]), fadeOut, ops[|ops| - 1])
  }

  lemma {:induction false} SetsOfOne(m: map<int, Voice>, fadeOut: bool, ops: seq<Op>, id: int)
    requires AllValid(m) && LegalSets(m, ops) && id in m
    ensures forall k :: 0 <= k < |Requests(ops, id)| ==> Requests(ops, id)[k] <= m[id].volMax
    ensures ApplySets(m, fadeOut, ops)[id] == Sets(m[id], Requests(ops, id))
    decreases |ops|
  {
    if ops != [] {
      var before, op := ops[..|ops| - 1], ops[|ops| - 1];
      SetsOfOne(m, fadeOut, before, id);
      SetOfOne(ApplySets(m, fadeOut, before), fadeOut, op, id);
      ghost var r, s := Requests(before, id), Requests(ops, id);
      assert s == if op.id == id then r + [op.vol] else r;
      assert op.id == id ==> op.vol <= m[id].volMax;
      forall k | 0 <= k < |s|
        ensures s[k] <= m[id].volMax
      {
      }
      if op.id == id {
        SetsSnoc(m[id], Requests(before, id), op.vol);
      }
      hide Valid, SetVol, Apply, Sets;
    }
  }

  lemma SetOfOne(m: map<int, Voice>, fadeOut: bool, op: Op, id: int)
    requires AllValid(m) && op.SetVoice? && Legal(m, op) && id in m
    ensures Apply(m, fadeOut, op)[id] == if op.id == id then SetVol(m[id], op.vol) else m[id]
  {
  }

  lemma SetsSnoc(v: Voice, requests: seq<nat>, vol: nat)
    requires Valid(v) && vol <= v.volMax && forall k :: 0 <= k < |requests| ==> requests[k] <= v.volMax
    ensures Sets(v, requests + [vol]) == SetVol(Sets(v, requests), vol)
  {
    assert (requests + [vol])[..|requests|] == requests;
  }

  /**
   MAIN: with fading on, open a voice, set any others in any order, close it: every other voice is at its
   last requested volume, or the one it had, provided no earlier open had it ducked.
   */
  lemma {:induction false} ForegroundRestores(m: map<int, Voice>, fg: int, vol: nat, volMax: nat, ops: seq<Op>, id: int)
    requires AllValid(m) && Legal(m, OpenVoice(fg, vol, volMax)) && id in m && Wanted(m[id]) == m[id].vol
    requires LegalSets(Apply(m, true, OpenVoice(fg, vol, volMax)), ops)
    ensures var ducked := Apply(m, true, OpenVoice(fg, vol, volMax));
      var r := Apply(ApplySets(ducked, true, ops), true, CloseVoice(fg));
      var q := Requests(ops, id);
      id in r && r[id].vol == if q == [] then m[id].vol else q[|q| - 1]
  {
    var ducked := Apply(m, true, OpenVoice(fg, vol, volMax));
    assert ducked[id] == Duck(m[id]);
    SetsOfOne(ducked, true, ops, id);
    DuckingRestoresIff(m[id], Requests(ops, id));
  }
}
