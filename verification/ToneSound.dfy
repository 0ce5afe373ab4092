/**
 What a tone list sounds like, in numbers: the size of every frame, how fast a phase turns, and which tone is
 on at which frame.
 */
module ToneSound {
  import opened CInt
  import Bits
  import opened ToneMaker
  import opened ToneStream

  /** Sines of amplitude at most 2^24, and no plain tone that grows. */
  ghost predicate Tame(sine: int -> int, tones: seq<SinParam>) {
    && (forall x: int :: -16777216 <= sine(x) <= 16777216)
    && (forall i :: 0 <= i < |tones| && !tones[i].win ==> tones[i].decay >= 0)
  }

  /** The phase, of 2^25 a turn, an oscillator of `freq` / 512 Hz reaches in `k` samples at 16 kHz. */
  function Phase(freq: int, k: nat): nat {
    k * Increment(freq) % 33554432
  }

  /** An oscillator turns as fast as its frequency asks for, to within one step of its phase. */
  lemma IncrementIsFrequency(freq: nat)
    requires freq < 274877906944
    ensures Increment(freq) * 8192000 <= 33554432 * freq < (Increment(freq) + 1) * 8192000
  {
    var x := 33554432 * freq;
    assert x % TWO64 == x;
  }

  /** What multiplies the sine: the window's own sine, or a volume falling from its start. */
  function Loudness(sine: int -> int, p: SinParam, off: nat, prefix: nat): int {
    if p.win then sine(Phase(p.decay, off)) else Max(0, 26843546 - Max(0, off - prefix) * p.decay)
  }

  /** `f` is the product of loudness and sine, divided by 2^34 and rounded down. */
  predicate Product(f: int, a: int, b: int) {
    17179869184 * f <= a * b < 17179869184 * (f + 1)
  }

  ghost predicate Sounds(sine: int -> int, tones: seq<SinParam>, c: Cursor, f: int) {
    && c.At? && c.id < |tones|
    && Product(f, Loudness(sine, tones[c.id], c.off, c.prefix), sine(Phase(tones[c.id].freq, c.off)))
  }

  lemma AtMost(a: int, b: int, n: nat, m: nat)
    requires Abs(a) <= n && Abs(b) <= m
    ensures Abs(a * b) <= n * m
  {
    assert Abs(a * b) == Abs(a) * Abs(b);
    assert Abs(a) * Abs(b) <= n * Abs(b) <= n * m;
  }

  lemma Shifted(x: int)
    requires -(26843546 * 16777216) <= x <= 26843546 * 16777216
    ensures 17179869184 * S16(x / TWO34) <= x < 17179869184 * (S16(x / TWO34) + 1)
  {
    var q := x / TWO34;
    assert x == q * TWO34 + x % TWO34;
    assert -0x8000 <= q < 0x8000;
  }

  lemma SinesFit(x: int)
    requires -16777216 <= x <= 16777216
    ensures S32(x) == x
  {
  }

  lemma FrameSounds(sine: int -> int, tones: seq<SinParam>, c: Cursor)
    requires c.At? && Inside(tones, c) && Tame(sine, tones)
    ensures Sounds(sine, tones, c, Frame(sine, tones, c))
  {
    var p := tones[c.id];
    var a, b := Loudness(sine, p, c.off, c.prefix), sine(Phase(p.freq, c.off));
    SinesFit(sine(Phase(p.decay, c.off)));
    SinesFit(b);
    assert !p.win ==> Max(0, c.off - c.prefix) * p.decay >= 0;
    assert Abs(a) <= 26843546 && Abs(b) <= 16777216;
    AtMost(a, b, 26843546, 16777216);
    assert Abs(a * b) <= 26843546 * 16777216;
    hide S32, S16, Increment;
    Shifted(a * b);
  }

  /** Every frame of a piece of audio has the size its place in the list gives it. */
  ghost predicate AllSound(sine: int -> int, tones: seq<SinParam>, repeats: bool, c: Cursor, frames: seq<int>)
    requires Inside(tones, c)
  {
    forall i :: 0 <= i < |frames| ==> Sounds(sine, tones, Forward(tones, repeats, c, i), frames[i])
  }

  lemma {:induction false} StreamAt(sine: int -> int, tones: seq<SinParam>, repeats: bool, c: Cursor, n: nat, i: nat)
    requires Inside(tones, c) && i < |Stream(sine, tones, repeats, c, n)|
    ensures var d := Forward(tones, repeats, c, i); d.At? && Stream(sine, tones, repeats, c, n)[i] == Frame(sine, tones, d)
    decreases i
  {
    hide Frame, Enter;
    if i > 0 {
      StreamAt(sine, tones, repeats, Next(tones, repeats, c), n - 1, i - 1);
    }
  }

  /** MAIN: every frame a call returns is loudness times sine at its place in the list, over 2^34. */
  lemma CallSounds(sine: int -> int, m: Maker, n: nat, c: Cursor)
    requires Stands(m, c) && Halts(m, n) && Tame(sine, m.tones)
    ensures AllSound(sine, m.tones, m.repeats, c, Call(sine, m, 0, n).frames)
  {
    assert Valid(m) && Inside(m.tones, c);
    hide Stands, Call, Frame, Stream, Next, Sounds, Valid;
    CallFollowsStream(sine, m, 0, n, c);
    var frames := Call(sine, m, 0, n).frames;
    forall i | 0 <= i < |frames|
      ensures Sounds(sine, m.tones, Forward(m.tones, m.repeats, c, i), frames[i])
    {
      StreamAt(sine, m.tones, m.repeats, c, n, i);
      FrameSounds(sine, m.tones, Forward(m.tones, m.repeats, c, i));
    }
  }

  // ---------- which tone is on ----------

  lemma PointsCut(tones: seq<SinParam>, id: nat)
    requires id < |tones|
    ensures Points(tones[..id + 1]) == Points(tones[..id]) + tones[id].points
    decreases id
  {
    if id == 0 {
      assert tones[..1][1..] == [] && tones[..0] == [];
    } else {
      PointsCut(tones[1..], id - 1);
      assert tones[..id + 1][1..] == tones[1..][..id] && tones[..id][1..] == tones[1..][..id - 1];
    }
  }

  /** Frames of the list before a place in it. */
  function Before(tones: seq<SinParam>, c: Cursor): nat
    requires c.At? && Inside(tones, c)
  {
    Points(tones[..c.id]) + c.off + if c.id > 0 then 480 else 0
  }

  /** A place a freshly opened list gets to: only the first tone has the prefix, of 480 frames. */
  predicate Opening(c: Cursor) {
    c.At? ==> c.prefix == if c.id == 0 then 480 else 0
  }

  lemma {:induction false} EnterIs(tones: seq<SinParam>, id: nat)
    requires 0 < id <= |tones|
    ensures var c := Enter(tones, false, id);
      && Opening(c)
      && (c.At? ==> id <= c.id && Before(tones, c) == Points(tones[..id]) + 480)
      && (c.End? ==> Points(tones[..id]) == Points(tones))
    decreases |tones| - id
  {
    if id == |tones| {
      assert tones[..id] == tones;
    } else if tones[id].points == 0 {
      PointsCut(tones, id);
      EnterIs(tones, id + 1);
    }
  }

  /** One frame on in a one-shot list. */
  lemma NextPlace(tones: seq<SinParam>, c: Cursor)
    requires c.At? && Inside(tones, c) && Opening(c)
    ensures var d := Next(tones, false, c);
      && Opening(d)
      && (d.At? <==> Before(tones, c) + 1 < 480 + Points(tones))
      && (d.At? ==> Before(tones, d) == Before(tones, c) + 1)
  {
    PointsCut(tones, c.id);
    PointsSplit(tones, c.id);
    PointsSplit(tones, c.id + 1);
    EnterIs(tones, c.id + 1);
    assert c.id == 0 ==> Points(tones[..0]) == 0;
    var d := Enter(tones, false, c.id + 1);
    if d.At? {
      PointsCut(tones, d.id);
      PointsSplit(tones, d.id + 1);
    }
  }

  /** MAIN: frame `j` of a one-shot list is the one that `j` frames of prefix and tones, in order, precede; after the last comes nothing. */
  lemma {:induction false} ToneAt(tones: seq<SinParam>, j: nat)
    requires |tones| > 0
    ensures var c := Forward(tones, false, At(0, 480, 0), j);
      && Opening(c)
      && (c.At? <==> j < 480 + Points(tones))
      && (c.At? ==> Before(tones, c) == j && c.off < c.prefix + tones[c.id].points)
    decreases j
  {
    var c0 := At(0, 480, 0);
    if j > 0 {
      ToneAt(tones, j - 1);
      var c := Forward(tones, false, c0, j - 1);
      ForwardSnoc(tones, false, c0, j - 1);
      assert Forward(tones, false, c0, j) == Next(tones, false, c);
      if c.At? {
        NextPlace(tones, c);
      }
      hide Forward, Before, Enter;
    } else {
      assert Points(tones[..0]) == 0;
    }
  }

  lemma {:induction false} PointsSplit(tones: seq<SinParam>, id: nat)
    requires id <= |tones|
    ensures Points(tones) == Points(tones[..id]) + Points(tones[id..])
    decreases id
  {
    if id == 0 {
      assert tones[..0] == [] && tones[0..] == tones;
    } else {
      PointsSplit(tones[1..], id - 1);
      assert tones[..id][1..] == tones[1..][..id - 1] && tones[1..][id - 1..] == tones[id..];
    }
  }

  lemma {:induction false} ForwardSnoc(tones: seq<SinParam>, repeats: bool, c: Cursor, n: nat)
    requires Inside(tones, c)
    ensures Forward(tones, repeats, c, n + 1) == Next(tones, repeats, Forward(tones, repeats, c, n))
    decreases n
  {
    hide Next;
    if n > 0 {
      ForwardSnoc(tones, repeats, Next(tones, repeats, c), n - 1);
    } else {
      assert Forward(tones, repeats, c, 1) == Forward(tones, repeats, Next(tones, repeats, c), 0);
    }
  }

  /** A repeating list goes on as a one-shot one, and at its end starts again with its first audible tone. */
  lemma NextRepeats(tones: seq<SinParam>, c: Cursor)
    requires c.At? && Inside(tones, c) && FirstAudible(tones) < |tones|
    ensures var d := Next(tones, false, c);
      Next(tones, true, c) == if d.At? then d else At(FirstAudible(tones), 0, 0)
  {
    if c.off + 1 >= c.prefix + tones[c.id].points {
      EnterAgain(tones, c.id + 1);
    }
  }

  lemma {:induction false} EnterAgain(tones: seq<SinParam>, id: nat)
    requires id <= |tones| && FirstAudible(tones) < |tones|
    ensures var d := Enter(tones, false, id);
      Enter(tones, true, id) == if d.At? then d else At(FirstAudible(tones), 0, 0)
    decreases |tones| - id
  {
    if id < |tones| {
      EnterAgain(tones, id + 1);
    }
  }

  /** Frames of the list before a place, the prefix left out. */
  function PlayedTo(tones: seq<SinParam>, c: Cursor): nat
    requires c.At? && Inside(tones, c)
  {
    Points(tones[..c.id]) + c.off
  }

  lemma NoneBeforeFirst(tones: seq<SinParam>, id: nat)
    requires id <= FirstAudible(tones)
    ensures id <= |tones| && Points(tones[..id]) == 0
    decreases id
  {
    if id == 0 {
      assert tones[..0] == [];
    } else {
      NoneBeforeFirst(tones, id - 1);
      PointsCut(tones, id - 1);
    }
  }

  lemma PlayedIs(tones: seq<SinParam>, c: Cursor)
    requires c.At? && Inside(tones, c)
    ensures PlayedTo(tones, c) == Points(tones[..c.id]) + c.off
  {
  }

  /** MAIN: past its prefix a repeating list comes round: frame `j` of the cycle is the one `j` modulo its points precede. */
  lemma {:induction false} ToneComesRound(tones: seq<SinParam>, j: nat)
    requires FirstAudible(tones) < |tones|
    ensures Points(tones) > 0
    ensures var c := Forward(tones, true, At(FirstAudible(tones), 0, 0), j);
      c.At? && c.prefix == 0 && PlayedTo(tones, c) == j % Points(tones)
    decreases j
  {
    RoundStarts(tones);
    hide *;
    if j > 0 {
      ToneComesRound(tones, j - 1);
      var start := At(FirstAudible(tones), 0, 0);
      ForwardSnoc(tones, true, start, j - 1);
      NextRound(tones, Forward(tones, true, start, j - 1));
      Rounds(j - 1, Points(tones));
    }
  }

  lemma RoundStarts(tones: seq<SinParam>)
    requires FirstAudible(tones) < |tones|
    ensures var start := At(FirstAudible(tones), 0, 0);
      && Inside(tones, start) && Forward(tones, true, start, 0) == start
      && 0 == PlayedTo(tones, start) < Points(tones)
  {
    var start := At(FirstAudible(tones), 0, 0);
    assert Forward(tones, true, start, 0) == start;
    hide Forward, Points, PlayedTo;
    NoneBeforeFirst(tones, FirstAudible(tones));
    PlayedIs(tones, start);
    PlayedBelow(tones, start);
  }

  lemma Rounds(j: nat, n: nat)
    requires n > 0
    ensures (j + 1) % n == if j % n + 1 == n then 0 else j % n + 1
  {
    assert j == j / n * n + j % n;
    if j % n + 1 == n {
      assert j + 1 == (j / n + 1) * n;
      Bits.ModUnique(j + 1, j / n + 1, 0, n);
    } else {
      Bits.ModUnique(j + 1, j / n, j % n + 1, n);
    }
  }

  lemma PlayedBelow(tones: seq<SinParam>, c: Cursor)
    requires c.At? && c.prefix == 0 && Inside(tones, c)
    ensures PlayedTo(tones, c) < Points(tones)
  {
    PointsCut(tones, c.id);
    PointsSplit(tones, c.id + 1);
  }

  lemma EnteredAt(tones: seq<SinParam>, id: nat)
    requires id < |tones|
    ensures var d := Enter(tones, false, id + 1);
      if d.At? then d.prefix == 0 && PlayedTo(tones, d) == Points(tones[..id]) + tones[id].points
      else Points(tones[..id]) + tones[id].points == Points(tones)
  {
    EnterIs(tones, id + 1);
    PointsCut(tones, id);
    hide Enter, Points;
  }

  lemma NextOneShot(tones: seq<SinParam>, c: Cursor)
    requires c.At? && c.prefix == 0 && Inside(tones, c)
    ensures var d := Next(tones, false, c);
      if d.At? then d.prefix == 0 && PlayedTo(tones, d) == PlayedTo(tones, c) + 1
      else PlayedTo(tones, c) + 1 == Points(tones)
  {
    hide Points, Enter;
    if c.off + 1 >= tones[c.id].points {
      EnteredAt(tones, c.id);
      hide PlayedTo;
      assert PlayedTo(tones, c) == Points(tones[..c.id]) + c.off by {
        PlayedIs(tones, c);
      }
    }
  }

  lemma NextRound(tones: seq<SinParam>, c: Cursor)
    requires c.At? && c.prefix == 0 && Inside(tones, c) && FirstAudible(tones) < |tones|
    ensures var d := Next(tones, true, c);
      && d.At? && d.prefix == 0
      && PlayedTo(tones, d) == if PlayedTo(tones, c) + 1 == Points(tones) then 0 else PlayedTo(tones, c) + 1
  {
    hide *;
    NextRepeats(tones, c);
    NextOneShot(tones, c);
    var d := Next(tones, false, c);
    if d.At? {
      PlayedBelow(tones, d);
    } else {
      NoneBeforeFirst(tones, FirstAudible(tones));
      PlayedIs(tones, At(FirstAudible(tones), 0, 0));
    }
  }
}
