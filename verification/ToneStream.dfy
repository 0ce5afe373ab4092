/**
 A tone list described frame by frame, and the proof that the generator's calls, whatever the list
 and however the request is chunked, walk along that description.
 */
module ToneStream {
  import opened CInt
  import opened ToneMaker

  /** A place in the audio: frame `off` of tone `id`, which `prefix` frames at full volume precede. */
  datatype Cursor = At(id: nat, prefix: nat, off: nat) | End

  ghost predicate Inside(tones: seq<SinParam>, c: Cursor) {
    c.At? ==> c.id < |tones| && c.off < c.prefix + tones[c.id].points
  }

  /** Frame at a cursor: phase linear in the offset, volume constant then falling linearly to 0. */
  function Frame(sine: int -> int, tones: seq<SinParam>, c: Cursor): int
    requires c.At? && Inside(tones, c)
  {
    var p := tones[c.id];
    var fall := Max(0, c.off - c.prefix);
    Sample(sine, p,
           c.off * Increment(p.freq) % PHASE_TURN,
           c.off * Increment(p.decay) % PHASE_TURN,
           Max(0, TOTAL_VOLUME - fall * p.decay))
  }

  /** Start of the first audible tone at or after `id`. */
  function Enter(tones: seq<SinParam>, repeats: bool, id: nat): (c: Cursor)
    requires id <= |tones|
    ensures Inside(tones, c)
    decreases |tones| - id
  {
    if id < |tones| then
      if tones[id].points > 0 then At(id, 0, 0) else Enter(tones, repeats, id + 1)
    else if repeats && FirstAudible(tones) < |tones| then At(FirstAudible(tones), 0, 0)
    else End
  }

  function Next(tones: seq<SinParam>, repeats: bool, c: Cursor): (r: Cursor)
    requires Inside(tones, c)
    ensures Inside(tones, r)
  {
    if c.End? then End
    else if c.off + 1 < c.prefix + tones[c.id].points then c.(off := c.off + 1)
    else Enter(tones, repeats, c.id + 1)
  }

  function Forward(tones: seq<SinParam>, repeats: bool, c: Cursor, n: nat): (r: Cursor)
    requires Inside(tones, c)
    ensures Inside(tones, r)
    decreases n
  {
    if n == 0 then c else Forward(tones, repeats, Next(tones, repeats, c), n - 1)
  }

  /**
   Where a call leaves the audio: a call that ends inside the prefix of a tone without points goes on to
   the following tone and takes the rest of the prefix along.
   */
  function Cut(tones: seq<SinParam>, repeats: bool, c: Cursor): (r: Cursor)
    requires Inside(tones, c)
    ensures Inside(tones, r)
  {
    if c.At? && c.off < c.prefix && tones[c.id].points == 0 && (repeats || c.id + 1 < |tones|) then
      At(if c.id + 1 < |tones| then c.id + 1 else 0, c.prefix - c.off, 0)
    else c
  }

  /** The next `n` frames, or all that are left. */
  function Stream(sine: int -> int, tones: seq<SinParam>, repeats: bool, c: Cursor, n: nat): seq<int>
    requires Inside(tones, c)
    decreases n
  {
    if n == 0 || c.End? then []
    else [Frame(sine, tones, c)] + Stream(sine, tones, repeats, Next(tones, repeats, c), n - 1)
  }

  lemma {:induction false} StreamEnds(sine: int -> int, tones: seq<SinParam>, repeats: bool, n: nat)
    ensures Stream(sine, tones, repeats, End, n) == [] && Forward(tones, repeats, End, n) == End
  {
    if n > 0 {
      StreamEnds(sine, tones, repeats, n - 1);
    }
  }

  lemma {:induction false} StreamSplits(sine: int -> int, tones: seq<SinParam>, repeats: bool, c: Cursor, n: nat, m: nat)
    requires Inside(tones, c)
    ensures Stream(sine, tones, repeats, c, n + m)
         == Stream(sine, tones, repeats, c, n) + Stream(sine, tones, repeats, Forward(tones, repeats, c, n), m)
    ensures Forward(tones, repeats, c, n + m) == Forward(tones, repeats, Forward(tones, repeats, c, n), m)
    decreases n
  {
    hide Frame, Enter, FirstAudible;
    if n == 0 {
      assert n + m == m && Forward(tones, repeats, c, 0) == c;
    } else {
      var d := Next(tones, repeats, c);
      StreamSplits(sine, tones, repeats, d, n - 1, m);
      assert n + m - 1 == n - 1 + m;
      if c.End? {
        StreamEnds(sine, tones, repeats, n - 1);
        StreamEnds(sine, tones, repeats, n);
      } else {
        assert Stream(sine, tones, repeats, c, n) == [Frame(sine, tones, c)] + Stream(sine, tones, repeats, d, n - 1);
      }
    }
  }

  /** Frames still to come in a one-shot list. */
  function Left(tones: seq<SinParam>, c: Cursor): nat
    requires Inside(tones, c)
  {
    if c.End? then 0 else c.prefix + tones[c.id].points - c.off + Points(tones[c.id + 1..])
  }

  function Points(tones: seq<SinParam>): nat {
    if tones == [] then 0 else tones[0].points + Points(tones[1..])
  }

  lemma {:induction false} LeftOnEnter(tones: seq<SinParam>, id: nat)
    requires id <= |tones|
    ensures Left(tones, Enter(tones, false, id)) == Points(tones[id..])
    decreases |tones| - id
  {
    if id < |tones| {
      assert tones[id..][1..] == tones[id + 1..];
      LeftOnEnter(tones, id + 1);
    } else {
      assert tones[id..] == [];
    }
  }

  lemma LeftNext(tones: seq<SinParam>, c: Cursor)
    requires Inside(tones, c)
    ensures Left(tones, Next(tones, false, c)) == Max(0, Left(tones, c) - 1)
    ensures c.At? ==> Left(tones, c) > 0
  {
    if c.At? {
      LeftOnEnter(tones, c.id + 1);
    }
  }

  /** A one-shot list yields exactly the frames that are left, never more. */
  lemma {:induction false} StreamLength(sine: int -> int, tones: seq<SinParam>, c: Cursor, n: nat)
    requires Inside(tones, c)
    ensures |Stream(sine, tones, false, c, n)| == Min(n, Left(tones, c))
    ensures Left(tones, Forward(tones, false, c, n)) == Max(0, Left(tones, c) - n)
    decreases n
  {
    if c.End? {
      StreamEnds(sine, tones, false, n);
    } else if n > 0 {
      hide Next, Left, Frame;
      LeftNext(tones, c);
      StreamLength(sine, tones, Next(tones, false, c), n - 1);
    }
  }

  /** Frames within one tone, as a block. */
  lemma {:induction false} StreamBlock(sine: int -> int, tones: seq<SinParam>, repeats: bool, c: Cursor, k: nat)
    requires c.At? && Inside(tones, c)
    requires c.off + k <= c.prefix + tones[c.id].points
    ensures |Stream(sine, tones, repeats, c, k)| == k
    ensures forall i :: 0 <= i < k ==> Stream(sine, tones, repeats, c, k)[i] == Frame(sine, tones, c.(off := c.off + i))
    ensures Forward(tones, repeats, c, k)
         == if c.off + k < c.prefix + tones[c.id].points then c.(off := c.off + k)
            else Enter(tones, repeats, c.id + 1)
    decreases k
  {
    hide Frame, Enter, FirstAudible;
    if k == 1 {
      var d := Next(tones, repeats, c);
      assert Forward(tones, repeats, c, 1) == Forward(tones, repeats, d, 0) == d;
      assert Stream(sine, tones, repeats, d, 0) == [];
    } else if k > 1 {
      var d := Next(tones, repeats, c);
      StreamBlock(sine, tones, repeats, d, k - 1);
      forall i | 0 <= i < k
        ensures Stream(sine, tones, repeats, c, k)[i] == Frame(sine, tones, c.(off := c.off + i))
      {
        if i > 0 {
          assert Stream(sine, tones, repeats, c, k)[i] == Stream(sine, tones, repeats, d, k - 1)[i - 1];
        }
      }
    }
  }

  // ---------- the generator's state and the cursor it stands for ----------

  ghost predicate Stands(m: Maker, c: Cursor) {
    && Valid(m)
    && Inside(m.tones, c)
    && (m.nextParam ==> m.points == m.tones[m.id].points)
    && if m.fadePoints > 0 then
         && c.At? && m.id == c.id
         && m.fadePoints + c.off == c.prefix
         && m.points == m.tones[m.id].points
         && Oscillates(m, c)
       else if m.points == 0 then
         if m.nextParam then c == Enter(m.tones, m.repeats, m.id)
         else c == End && m.id + 1 == |m.tones| && !m.repeats
       else
         && c.At? && c.id == m.id
         && c.off + m.points == c.prefix + m.tones[m.id].points
         && c.prefix <= c.off
         && Oscillates(m, c)
  }

  /** Phases and volume are those of frame `c.off`; the volume of a windowed tone is not used. */
  ghost predicate Oscillates(m: Maker, c: Cursor)
    requires m.id < |m.tones| && c.At?
  {
    if m.nextParam then c.off == 0
    else
      var p := m.tones[m.id];
      && m.sinIndex == c.off * Increment(p.freq) % PHASE_TURN
      && (p.win ==> m.winIndex == c.off * Increment(p.decay) % PHASE_TURN)
      && (!p.win ==> m.volume == Max(0, TOTAL_VOLUME - Max(0, c.off - c.prefix) * p.decay))
  }

  lemma OpenStands(tones: seq<SinParam>, repeats: bool)
    requires |tones| > 0
    ensures Stands(Open(tones, repeats), At(0, 480, 0))
  {
  }

  lemma PhaseAdvances(off: nat, add: nat, k: nat)
    ensures PhaseAt(off * add % PHASE_TURN, add, k) == (off + k) * add % PHASE_TURN
  {
    assert (off + k) * add == off * add + k * add;
  }

  lemma VolumeFalls(v: int, sub: int, j: nat, k: nat)
    requires 0 <= v
    ensures VolumeAt(Max(0, v - j * sub), sub, k) == Max(0, v - (j + k) * sub)
  {
    assert (j + k) * sub == j * sub + k * sub;
    if sub >= 0 {
      assert k * sub >= 0 && j * sub >= 0;
    } else {
      assert k * sub <= 0 && j * sub <= 0;
    }
  }

  /** Sample `i` of a segment is frame `c.off + i`, whatever volume decrement is in force. */
  lemma SampleIsFrame(sine: int -> int, m: Maker, c: Cursor, sub: int, k: nat, i: nat)
    requires Stands(m, c) && c.At? && m.id == c.id && !m.nextParam && Oscillates(m, c)
    requires SubFits(m.tones[c.id], c, sub, k) && i <= k
    ensures PhaseAt(m.sinIndex, Increment(m.tones[m.id].freq), i) == (c.off + i) * Increment(m.tones[m.id].freq) % PHASE_TURN
    ensures m.tones[m.id].win ==>
      PhaseAt(m.winIndex, Increment(m.tones[m.id].decay), i) == (c.off + i) * Increment(m.tones[m.id].decay) % PHASE_TURN
    ensures !m.tones[m.id].win ==>
      VolumeAt(m.volume, sub, i) == Max(0, TOTAL_VOLUME - Max(0, c.off + i - c.prefix) * m.tones[m.id].decay)
  {
    var p := m.tones[m.id];
    PhaseAdvances(c.off, Increment(p.freq), i);
    PhaseAdvances(c.off, Increment(p.decay), i);
    if p.win {
    } else if c.off < c.prefix {
      assert Max(0, c.off - c.prefix) == Max(0, c.off + i - c.prefix) == 0;
    } else {
      VolumeFalls(TOTAL_VOLUME, p.decay, c.off - c.prefix, i);
    }
  }

  /** The decrement a turn applies: none in the opening prefix, the tone's own after it. */
  ghost predicate SubFits(p: SinParam, c: Cursor, sub: int, k: nat)
    requires c.At?
  {
    if c.off < c.prefix then c.off + k <= c.prefix && sub == 0
    else p.win || sub == p.decay
  }

  lemma SegmentIsStream(sine: int -> int, m: Maker, c: Cursor, sub: int, k: nat)
    requires Stands(m, c) && c.At? && m.id == c.id && !m.nextParam && Oscillates(m, c)
    requires c.off + k <= c.prefix + m.tones[c.id].points
    requires SubFits(m.tones[c.id], c, sub, k)
    ensures Segment(sine, m.tones[m.id], m.sinIndex, m.winIndex, m.volume, sub, k) == Stream(sine, m.tones, m.repeats, c, k)
  {
    StreamBlock(sine, m.tones, m.repeats, c, k);
    var seg := Segment(sine, m.tones[m.id], m.sinIndex, m.winIndex, m.volume, sub, k);
    forall i | 0 <= i < k
      ensures seg[i] == Frame(sine, m.tones, c.(off := c.off + i))
    {
      SampleIsFrame(sine, m, c, sub, k, i);
    }
  }

  /** What one turn of the loop does to a generator standing for `c`. */
  ghost predicate Follows(m: Maker, c: Cursor, remaining: nat, r: PassResult, played: seq<int>)
    requires Inside(m.tones, c)
  {
    var k := |r.frames|;
    var d := Forward(m.tones, m.repeats, c, k);
    && r.frames == played
    && r.maker.tones == m.tones && r.maker.repeats == m.repeats
    && Stands(r.maker, Cut(m.tones, m.repeats, d))
    && r.remaining == remaining - k
    && (!r.done ==> Cut(m.tones, m.repeats, d) == d)
    && (r.done && r.remaining > 0 ==> d == End)
  }

  /** Past the end of a repeating list comes its first audible tone. */
  lemma {:induction false} EnterFromStart(tones: seq<SinParam>, i: nat)
    requires i <= FirstAudible(tones)
    ensures Enter(tones, true, i) == if FirstAudible(tones) < |tones| then At(FirstAudible(tones), 0, 0) else End
    decreases FirstAudible(tones) - i
  {
    if i < FirstAudible(tones) {
      EnterFromStart(tones, i + 1);
    }
  }

  lemma EnterLast(tones: seq<SinParam>)
    ensures Enter(tones, false, |tones|) == End
  {
  }

  /** The generator that has just loaded the following tone stands at the next audible frame. */
  lemma MovesOn(m: Maker, c: Cursor)
    requires m.id < |m.tones| && (m.repeats || m.id + 1 < |m.tones|)
    requires c == Enter(m.tones, m.repeats, m.id + 1)
    ensures var id := Following(m);
      if m.tones[id].points == 0 then c == Enter(m.tones, m.repeats, id) else c == At(id, 0, 0)
  {
    if m.id + 1 == |m.tones| {
      EnterFromStart(m.tones, 0);
    }
  }

  lemma SilentTurn(sine: int -> int, m: Maker, subVol: int, remaining: nat, c: Cursor)
    requires Stands(m, c) && m.fadePoints == 0 && m.points == 0
    ensures Follows(m, c, remaining, Pass(sine, m, subVol, remaining), [])
  {
    var r := Pass(sine, m, subVol, remaining);
    assert |r.frames| == PassCount(Arm(m), remaining) == 0;
    assert r.frames == [] && Forward(m.tones, m.repeats, c, 0) == c;
    if m.nextParam {
      EnterPrefix(m.tones, m.repeats, m.id);
      if m.repeats || m.id + 1 < |m.tones| {
        MovesOn(m, c);
      } else {
        EnterLast(m.tones);
      }
    }
  }

  /** After the inner loop the oscillator and volume are those of frame `c.off + k`. */
  lemma OscillatorPlayed(m: Maker, c: Cursor, sub: int, k: nat)
    requires Stands(m, c) && c.At? && m.id == c.id && !m.nextParam
    requires SubFits(m.tones[c.id], c, sub, k)
    requires k <= if m.fadePoints > 0 then m.fadePoints else m.points
    ensures Oscillates(Played(m, sub, k), c.(off := c.off + k))
  {
    SampleIsFrame(x => x, m, c, sub, k, k);
  }

  lemma BlockEnds(sine: int -> int, tones: seq<SinParam>, repeats: bool, c: Cursor, k: nat)
    requires c.At? && Inside(tones, c) && c.off + k <= c.prefix + tones[c.id].points
    ensures |Stream(sine, tones, repeats, c, k)| == k && Forward(tones, repeats, c, k) == Reached(tones, repeats, c, k)
  {
    hide Stream, Forward, Enter;
    StreamBlock(sine, tones, repeats, c, k);
  }

  lemma ArmStands(m: Maker, c: Cursor)
    requires Stands(m, c) && !(m.fadePoints == 0 && m.points == 0)
    ensures Stands(Arm(m), c) && Oscillates(Arm(m), c) && c.At? && c.id == m.id
  {
  }

  lemma PlayingTurn(sine: int -> int, m: Maker, subVol: int, remaining: nat, c: Cursor)
    requires Stands(m, c) && !(m.fadePoints == 0 && m.points == 0)
    ensures var k := PassCount(Arm(m), remaining);
      Follows(m, c, remaining, Pass(sine, m, subVol, remaining), Stream(sine, m.tones, m.repeats, c, k))
  {
    hide Stream, Segment, Next, Frame, Enter, FirstAudible, Increment;
    var a := Arm(m);
    var k := PassCount(a, remaining);
    var sub := PassSub(a, subVol);
    ArmStands(m, c);
    SegmentIsStream(sine, a, c, sub, k);
    BlockEnds(sine, m.tones, m.repeats, c, k);
    OscillatorPlayed(a, c, sub, k);
    hide Oscillates, Cut, Reached;
    PlayedStands(sine, m, subVol, remaining, c);
  }

  lemma PlayedStands(sine: int -> int, m: Maker, subVol: int, remaining: nat, c: Cursor)
    requires Stands(m, c) && c.At? && m.id == c.id && !(m.fadePoints == 0 && m.points == 0)
    requires var a := Arm(m); var k := PassCount(a, remaining);
      && Oscillates(Played(a, PassSub(a, subVol), k), c.(off := c.off + k))
    ensures var r := Pass(sine, m, subVol, remaining);
      var k := PassCount(Arm(m), remaining);
      var d := Reached(m.tones, m.repeats, c, k);
      && Stands(r.maker, Cut(m.tones, m.repeats, d))
      && (!r.done ==> Cut(m.tones, m.repeats, d) == d)
      && (r.done && r.remaining > 0 ==> d == End)
  {
    var a := Arm(m);
    var k := PassCount(a, remaining);
    hide Enter, FirstAudible, Increment, Oscillates;
    SettleStands(Played(a, PassSub(a, subVol), k), PassSub(a, subVol), remaining - k,
                 Pass(sine, m, subVol, remaining).frames, c, k);
  }

  /** The end of a turn that has played `k` frames from `c`. */
  lemma SettleStands(b: Maker, sub: int, remaining: nat, frames: seq<int>, c: Cursor, k: nat)
    requires c.At? && Inside(b.tones, c) && c.off + k <= c.prefix + b.tones[c.id].points
    requires b.id == c.id && 0 <= b.volume && b.fadePoints <= FADE_POINTS && b.points <= b.tones[b.id].points
    requires b.sinIndex < PHASE_TURN && b.winIndex < PHASE_TURN && !b.nextParam
    requires if b.fadePoints > 0 then b.fadePoints + c.off + k == c.prefix && b.points == b.tones[b.id].points
             else c.off + k + b.points == c.prefix + b.tones[b.id].points && c.prefix <= c.off + k
    requires b.fadePoints > 0 ==> remaining == 0
    requires Oscillates(b, c.(off := c.off + k))
    ensures var r := Settle(b, sub, remaining, frames);
      var d := Reached(b.tones, b.repeats, c, k);
      && Stands(r.maker, Cut(b.tones, b.repeats, d))
      && (!r.done ==> Cut(b.tones, b.repeats, d) == d)
      && (r.done && r.remaining > 0 ==> d == End)
  {
    hide Enter, FirstAudible, Increment;
    if b.points > 0 {
      assert Stands(b, c.(off := c.off + k));
    } else if b.fadePoints == 0 {
      EnterPrefix(b.tones, b.repeats, c.id + 1);
      if b.repeats || b.id + 1 < |b.tones| {
        MovesOn(b, Enter(b.tones, b.repeats, c.id + 1));
      } else {
        EnterLast(b.tones);
      }
    }
  }

  /** Frame `k` after a cursor within its tone, or the start of the next audible tone. */
  function Reached(tones: seq<SinParam>, repeats: bool, c: Cursor, k: nat): (d: Cursor)
    requires c.At? && Inside(tones, c) && c.off + k <= c.prefix + tones[c.id].points
    ensures Inside(tones, d)
  {
    if c.off + k < c.prefix + tones[c.id].points then c.(off := c.off + k) else Enter(tones, repeats, c.id + 1)
  }

  lemma PassFollowsStream(sine: int -> int, m: Maker, subVol: int, remaining: nat, c: Cursor)
    requires Stands(m, c)
    ensures var r := Pass(sine, m, subVol, remaining);
      Follows(m, c, remaining, r, Stream(sine, m.tones, m.repeats, c, |r.frames|))
  {
    if m.fadePoints == 0 && m.points == 0 {
      SilentTurn(sine, m, subVol, remaining, c);
    } else {
      PlayingTurn(sine, m, subVol, remaining, c);
    }
  }

  /** MAIN: a call for `n` frames returns the next `n` frames of the stream (fewer only at its end). */
  lemma {:induction false} CallFollowsStream(sine: int -> int, m: Maker, subVol: int, n: nat, c: Cursor)
    requires Stands(m, c) && Halts(m, n)
    ensures var r := Call(sine, m, subVol, n);
      && r.frames == Stream(sine, m.tones, m.repeats, c, n)
      && Stands(r.maker, Cut(m.tones, m.repeats, Forward(m.tones, m.repeats, c, n)))
      && r.maker.tones == m.tones && r.maker.repeats == m.repeats
      && r.remaining == n - |r.frames|
    decreases n, Distance(m)
  {
    hide Stream, Next, Frame, Enter, FirstAudible;
    PassProgress(sine, m, subVol, n);
    PassFollowsStream(sine, m, subVol, n, c);
    var p := Pass(sine, m, subVol, n);
    var k := |p.frames|;
    var d := Forward(m.tones, m.repeats, c, k);
    assert k <= n;
    StreamSplits(sine, m.tones, m.repeats, c, k, n - k);
    assert k + (n - k) == n;
    if p.done {
      assert Call(sine, m, subVol, n) == CallResult(p.maker, p.remaining, p.frames);
      if p.remaining > 0 {
        StreamEnds(sine, m.tones, m.repeats, n - k);
      } else {
        StreamOfNone(sine, m.tones, m.repeats, d);
      }
    } else {
      CallFollowsStream(sine, p.maker, p.subVol, p.remaining, d);
      assert Call(sine, m, subVol, n).frames == p.frames + Call(sine, p.maker, p.subVol, p.remaining).frames;
    }
  }

  // ---------- chunking ----------

  function Sum(sizes: seq<nat>): nat {
    if sizes == [] then 0 else sizes[0] + Sum(sizes[1..])
  }

  /** Successive calls, one per requested size. */
  function Calls(sine: int -> int, m: Maker, sizes: seq<nat>): seq<int>
    requires Valid(m) && (m.repeats ==> FirstAudible(m.tones) < |m.tones|)
    decreases |sizes|
  {
    if sizes == [] then []
    else
      var r := Call(sine, m, 0, sizes[0]);
      r.frames + Calls(sine, r.maker, sizes[1..])
  }

  /** The audio of a list requested in pieces. */
  function Pieces(sine: int -> int, tones: seq<SinParam>, repeats: bool, c: Cursor, sizes: seq<nat>): seq<int>
    requires Inside(tones, c)
    decreases |sizes|
  {
    if sizes == [] then []
    else
      Stream(sine, tones, repeats, c, sizes[0])
      + Pieces(sine, tones, repeats, Cut(tones, repeats, Forward(tones, repeats, c, sizes[0])), sizes[1..])
  }

  lemma StreamOfNone(sine: int -> int, tones: seq<SinParam>, repeats: bool, c: Cursor)
    requires Inside(tones, c)
    ensures Stream(sine, tones, repeats, c, 0) == [] && Forward(tones, repeats, c, 0) == c
  {
  }

  /** MAIN: for every list and every split, the calls return the audio of the pieces. */
  lemma {:induction false} CallsFollowPieces(sine: int -> int, m: Maker, sizes: seq<nat>, c: Cursor)
    requires Stands(m, c) && (m.repeats ==> FirstAudible(m.tones) < |m.tones|)
    ensures Calls(sine, m, sizes) == Pieces(sine, m.tones, m.repeats, c, sizes)
    decreases |sizes|
  {
    hide Stream, Next, Frame, Enter, FirstAudible, Call;
    if sizes != [] {
      CallFollowsStream(sine, m, 0, sizes[0], c);
      CallsFollowPieces(sine, Call(sine, m, 0, sizes[0]).maker, sizes[1..],
                        Cut(m.tones, m.repeats, Forward(m.tones, m.repeats, c, sizes[0])));
    }
  }

  /** The list starts with an audible tone, or is a single one-shot tone: no call boundary moves on. */
  predicate ChunkSafe(tones: seq<SinParam>, repeats: bool) {
    |tones| > 0 && (tones[0].points > 0 || (|tones| == 1 && !repeats))
  }

  /** Only the first tone has a prefix. */
  predicate PrefixFirst(c: Cursor) {
    c.At? && c.prefix > 0 ==> c.id == 0
  }

  lemma {:induction false} ForwardPrefix(tones: seq<SinParam>, repeats: bool, c: Cursor, n: nat)
    requires Inside(tones, c) && PrefixFirst(c)
    ensures PrefixFirst(Forward(tones, repeats, c, n))
    decreases n
  {
    if n > 0 {
      EnterPrefix(tones, repeats, if c.At? then c.id + 1 else 0);
      ForwardPrefix(tones, repeats, Next(tones, repeats, c), n - 1);
    }
  }

  lemma {:induction false} EnterPrefix(tones: seq<SinParam>, repeats: bool, id: nat)
    requires id <= |tones|
    ensures var c := Enter(tones, repeats, id); c.At? ==> c.prefix == 0
    decreases |tones| - id
  {
    if id < |tones| {
      EnterPrefix(tones, repeats, id + 1);
    }
  }

  lemma {:induction false} SafePieces(sine: int -> int, tones: seq<SinParam>, repeats: bool, c: Cursor, sizes: seq<nat>)
    requires Inside(tones, c) && PrefixFirst(c) && ChunkSafe(tones, repeats)
    ensures Pieces(sine, tones, repeats, c, sizes) == Stream(sine, tones, repeats, c, Sum(sizes))
    decreases |sizes|
  {
    hide Stream, Next, Frame, Enter, FirstAudible;
    if sizes == [] {
      StreamOfNone(sine, tones, repeats, c);
    } else {
      var d := Forward(tones, repeats, c, sizes[0]);
      ForwardPrefix(tones, repeats, c, sizes[0]);
      assert Cut(tones, repeats, d) == d;
      StreamSplits(sine, tones, repeats, c, sizes[0], Sum(sizes[1..]));
      SafePieces(sine, tones, repeats, d, sizes[1..]);
    }
  }

  /** MAIN: for a chunk-safe list, however a request is split into calls, the audio is that of one big call. */
  lemma ChunkIndependent(sine: int -> int, tones: seq<SinParam>, repeats: bool, sizes: seq<nat>)
    requires ChunkSafe(tones, repeats) && (repeats ==> FirstAudible(tones) < |tones|)
    ensures Calls(sine, Open(tones, repeats), sizes) == Call(sine, Open(tones, repeats), 0, Sum(sizes)).frames
  {
    hide Stream, Next, Frame, Enter, Call;
    OpenStands(tones, repeats);
    CallsFollowPieces(sine, Open(tones, repeats), sizes, At(0, FADE_POINTS, 0));
    SafePieces(sine, tones, repeats, At(0, FADE_POINTS, 0), sizes);
    CallFollowsStream(sine, Open(tones, repeats), 0, Sum(sizes), At(0, FADE_POINTS, 0));
  }

  /** The opening prefix is over. */
  predicate PastPrefix(c: Cursor) {
    c.At? ==> c.prefix <= c.off
  }

  lemma {:induction false} ForwardPast(tones: seq<SinParam>, repeats: bool, c: Cursor, n: nat)
    requires Inside(tones, c) && (c.At? ==> c.prefix <= c.off + n)
    ensures PastPrefix(Forward(tones, repeats, c, n))
    decreases n
  {
    if n > 0 {
      EnterPrefix(tones, repeats, if c.At? then c.id + 1 else 0);
      hide Enter;
      ForwardPast(tones, repeats, Next(tones, repeats, c), n - 1);
    }
  }

  /** Past the prefix no call boundary moves on. */
  lemma {:induction false} PastPieces(sine: int -> int, tones: seq<SinParam>, repeats: bool, c: Cursor, sizes: seq<nat>)
    requires Inside(tones, c) && PastPrefix(c)
    ensures Pieces(sine, tones, repeats, c, sizes) == Stream(sine, tones, repeats, c, Sum(sizes))
    decreases |sizes|
  {
    hide Stream, Next, Frame, Enter, FirstAudible;
    if sizes == [] {
      StreamOfNone(sine, tones, repeats, c);
    } else {
      var d := Forward(tones, repeats, c, sizes[0]);
      ForwardPast(tones, repeats, c, sizes[0]);
      assert Cut(tones, repeats, d) == d;
      StreamSplits(sine, tones, repeats, c, sizes[0], Sum(sizes[1..]));
      PastPieces(sine, tones, repeats, d, sizes[1..]);
    }
  }

  /** MAIN: for every list, chunk-safe or not, any split whose first call takes the whole prefix gives the audio of one big call. */
  lemma LongFirstCall(sine: int -> int, tones: seq<SinParam>, repeats: bool, sizes: seq<nat>)
    requires |tones| > 0 && (repeats ==> FirstAudible(tones) < |tones|)
    requires sizes != [] && sizes[0] >= 480
    ensures Calls(sine, Open(tones, repeats), sizes) == Call(sine, Open(tones, repeats), 0, Sum(sizes)).frames
  {
    hide Stream, Next, Frame, Enter, Call;
    var c := At(0, FADE_POINTS, 0);
    var d := Forward(tones, repeats, c, sizes[0]);
    OpenStands(tones, repeats);
    CallsFollowPieces(sine, Open(tones, repeats), sizes, c);
    ForwardPast(tones, repeats, c, sizes[0]);
    assert Cut(tones, repeats, d) == d;
    PastPieces(sine, tones, repeats, d, sizes[1..]);
    StreamSplits(sine, tones, repeats, c, sizes[0], Sum(sizes[1..]));
    CallFollowsStream(sine, Open(tones, repeats), 0, Sum(sizes), c);
  }

  // ---------- length ----------

  /** A call boundary neither adds nor drops a frame. */
  lemma CutKeepsLeft(tones: seq<SinParam>, c: Cursor)
    requires Inside(tones, c)
    ensures Left(tones, Cut(tones, false, c)) == Left(tones, c)
  {
    if c.At? && c.id + 1 < |tones| {
      assert tones[c.id + 1..][1..] == tones[c.id + 2..];
    }
  }

  lemma {:induction false} PiecesLength(sine: int -> int, tones: seq<SinParam>, c: Cursor, sizes: seq<nat>)
    requires Inside(tones, c)
    ensures |Pieces(sine, tones, false, c, sizes)| == Min(Sum(sizes), Left(tones, c))
    decreases |sizes|
  {
    hide Stream, Forward, Cut, Left;
    if sizes != [] {
      var d := Forward(tones, false, c, sizes[0]);
      StreamLength(sine, tones, c, sizes[0]);
      CutKeepsLeft(tones, d);
      PiecesLength(sine, tones, Cut(tones, false, d), sizes[1..]);
    }
  }

  /** MAIN: however it is requested, a one-shot list gives 480 + sum of points frames, then nothing. */
  lemma OneShotLength(sine: int -> int, tones: seq<SinParam>, sizes: seq<nat>)
    requires |tones| > 0
    ensures |Calls(sine, Open(tones, false), sizes)| == Min(Sum(sizes), 480 + Points(tones))
  {
    hide Stream, Next, Frame, Enter, Call, Pieces;
    OpenStands(tones, false);
    CallsFollowPieces(sine, Open(tones, false), sizes, At(0, FADE_POINTS, 0));
    PiecesLength(sine, tones, At(0, FADE_POINTS, 0), sizes);
  }

  // ---------- lists that are not chunk-safe ----------

  /** The tone after the first, the first itself if there is no other. */
  function Second(tones: seq<SinParam>): SinParam
    requires |tones| > 0
  {
    if |tones| > 1 then tones[1] else tones[0]
  }

  /** Where the generator goes when a call ends `k` frames into the prefix. */
  function Skipped(tones: seq<SinParam>, k: nat): Cursor
    requires k < FADE_POINTS
  {
    At(if |tones| > 1 then 1 else 0, FADE_POINTS - k, 0)
  }

  /**
   MAIN: for every list that is not chunk-safe and every sine, a call for `k` frames and one for `n`, both in
   the prefix, give the audio of one call exactly when the next `n` frames of the first tone are those the
   following tone starts with.
   */
  lemma TwoCallsAgreeIff(sine: int -> int, tones: seq<SinParam>, repeats: bool, k: nat, n: nat)
    requires |tones| > 0 && !ChunkSafe(tones, repeats) && k < FADE_POINTS && k + n <= FADE_POINTS
    ensures var m := Open(tones, repeats);
      var r := Call(sine, m, 0, k);
      var d := Skipped(tones, k);
      && Halts(r.maker, n)
      && (r.frames + Call(sine, r.maker, 0, n).frames == Call(sine, m, 0, k + n).frames
          <==> forall i :: 0 <= i < n ==> Frame(sine, tones, At(0, FADE_POINTS, k + i)) == Frame(sine, tones, At(d.id, d.prefix, i)))
  {
    hide Call, Frame, Stands;
    var m := Open(tones, repeats);
    var d := Skipped(tones, k);
    SkippedAfter(sine, tones, repeats, k, n);
    OpenStands(tones, repeats);
    var r := Call(sine, m, 0, k);
    CallInTone(sine, m, k, At(0, FADE_POINTS, 0));
    CallInTone(sine, m, k + n, At(0, FADE_POINTS, 0));
    CallInTone(sine, r.maker, n, d);
    BlocksJoin(r.frames, Call(sine, r.maker, 0, n).frames, Call(sine, m, 0, k + n).frames);
  }

  /** A call that stays within a tone returns its frames. */
  lemma CallInTone(sine: int -> int, m: Maker, n: nat, c: Cursor)
    requires Stands(m, c) && Halts(m, n) && c.At? && c.off == 0 && n <= c.prefix
    ensures var frames := Call(sine, m, 0, n).frames;
      |frames| == n && forall i :: 0 <= i < n ==> frames[i] == Frame(sine, m.tones, At(c.id, c.prefix, i))
  {
    hide Call, Enter, FirstAudible, Frame, Stream;
    CallFollowsStream(sine, m, 0, n, c);
    StreamBlock(sine, m.tones, m.repeats, c, n);
    forall i | 0 <= i < n
      ensures Stream(sine, m.tones, m.repeats, c, n)[i] == Frame(sine, m.tones, At(c.id, c.prefix, i))
    {
      assert c.(off := c.off + i) == At(c.id, c.prefix, i);
    }
  }

  lemma SkippedAfter(sine: int -> int, tones: seq<SinParam>, repeats: bool, k: nat, n: nat)
    requires |tones| > 0 && !ChunkSafe(tones, repeats) && k < FADE_POINTS && k + n <= FADE_POINTS
    ensures var r := Call(sine, Open(tones, repeats), 0, k);
      && Halts(r.maker, n) && Stands(r.maker, Skipped(tones, k))
      && r.maker.tones == tones && r.maker.repeats == repeats
  {
    hide Call, Enter, FirstAudible, Frame, Increment, Stream;
    var c := At(0, FADE_POINTS, 0);
    OpenStands(tones, repeats);
    CallFollowsStream(sine, Open(tones, repeats), 0, k, c);
    StreamBlock(sine, tones, repeats, c, k);
    var r := Call(sine, Open(tones, repeats), 0, k);
    assert Cut(tones, repeats, c.(off := k)) == Skipped(tones, k);
    EnterPrefix(tones, repeats, r.maker.id);
    assert r.maker.fadePoints == FADE_POINTS - k;
  }

  lemma BlocksJoin(a: seq<int>, b: seq<int>, whole: seq<int>)
    requires |whole| == |a| + |b| && forall i :: 0 <= i < |a| ==> a[i] == whole[i]
    ensures a + b == whole <==> forall i :: 0 <= i < |b| ==> whole[|a| + i] == b[i]
  {
    if a + b == whole {
      forall i | 0 <= i < |b|
        ensures whole[|a| + i] == b[i]
      {
        assert (a + b)[|a| + i] == b[i];
      }
    }
  }

  /** In particular two calls of one frame. */
  lemma SplitDiffersIff(sine: int -> int, tones: seq<SinParam>, repeats: bool)
    requires |tones| > 0 && !ChunkSafe(tones, repeats)
    ensures var m := Open(tones, repeats);
      var r := Call(sine, m, 0, 1);
      && Halts(r.maker, 1)
      && (r.frames + Call(sine, r.maker, 0, 1).frames != Call(sine, m, 0, 2).frames
          <==> Frame(sine, tones, At(0, FADE_POINTS, 1)) != Sample(sine, Second(tones), 0, 0, TOTAL_VOLUME))
  {
    hide Call, Frame, Sample, Halts, ChunkSafe;
    TwoCallsAgreeIff(sine, tones, repeats, 1, 1);
    FirstFrame(sine, tones, Skipped(tones, 1));
    hide Stands, Inside;
    assert At(0, FADE_POINTS, 1 + 0) == At(0, FADE_POINTS, 1);
  }

  lemma FirstFrame(sine: int -> int, tones: seq<SinParam>, c: Cursor)
    requires c.At? && Inside(tones, c) && c.off == 0
    ensures Frame(sine, tones, c) == Sample(sine, tones[c.id], 0, 0, TOTAL_VOLUME)
  {
  }

  // ---------- any split of any list ----------

  /** As much audio is left from either place. */
  ghost predicate SameLeft(tones: seq<SinParam>, repeats: bool, c: Cursor, d: Cursor)
    requires Inside(tones, c) && Inside(tones, d)
  {
    if repeats then c.At? && d.At? && FirstAudible(tones) < |tones| else Left(tones, c) == Left(tones, d)
  }

  lemma {:induction false} NeverEnds(sine: int -> int, tones: seq<SinParam>, c: Cursor, n: nat)
    requires Inside(tones, c) && c.At? && FirstAudible(tones) < |tones|
    ensures |Stream(sine, tones, true, c, n)| == n && Forward(tones, true, c, n).At?
    decreases n
  {
    hide FirstAudible, Frame, Enter;
    if n > 0 {
      AlwaysEnters(tones, c.id + 1);
      NeverEnds(sine, tones, Next(tones, true, c), n - 1);
    }
  }

  lemma {:induction false} AlwaysEnters(tones: seq<SinParam>, id: nat)
    requires id <= |tones| && FirstAudible(tones) < |tones|
    ensures Enter(tones, true, id).At?
    decreases |tones| - id
  {
    if id < |tones| {
      AlwaysEnters(tones, id + 1);
    }
  }

  lemma SameLength(sine: int -> int, tones: seq<SinParam>, repeats: bool, c: Cursor, d: Cursor, n: nat)
    requires Inside(tones, c) && Inside(tones, d) && SameLeft(tones, repeats, c, d)
    ensures |Stream(sine, tones, repeats, c, n)| == |Stream(sine, tones, repeats, d, n)|
    ensures SameLeft(tones, repeats, Forward(tones, repeats, c, n), Cut(tones, repeats, Forward(tones, repeats, d, n)))
  {
    hide Stream, Forward, Left, FirstAudible;
    if repeats {
      NeverEnds(sine, tones, c, n);
      NeverEnds(sine, tones, d, n);
    } else {
      StreamLength(sine, tones, c, n);
      StreamLength(sine, tones, d, n);
      CutKeepsLeft(tones, Forward(tones, repeats, d, n));
    }
  }

  /** Every piece, played from where the last call left the generator (`d`), is what the list has there (`c`). */
  ghost predicate SameAudio(sine: int -> int, tones: seq<SinParam>, repeats: bool, c: Cursor, d: Cursor, sizes: seq<nat>)
    requires Inside(tones, c) && Inside(tones, d)
    decreases |sizes|
  {
    sizes != [] ==>
      && Stream(sine, tones, repeats, c, sizes[0]) == Stream(sine, tones, repeats, d, sizes[0])
      && SameAudio(sine, tones, repeats, Forward(tones, repeats, c, sizes[0]),
                   Cut(tones, repeats, Forward(tones, repeats, d, sizes[0])), sizes[1..])
  }

  lemma {:induction false} PiecesAgreeIff(sine: int -> int, tones: seq<SinParam>, repeats: bool, c: Cursor, d: Cursor, sizes: seq<nat>)
    requires Inside(tones, c) && Inside(tones, d) && SameLeft(tones, repeats, c, d)
    ensures Pieces(sine, tones, repeats, d, sizes) == Stream(sine, tones, repeats, c, Sum(sizes))
      <==> SameAudio(sine, tones, repeats, c, d, sizes)
    decreases |sizes|
  {
    hide Stream, Forward, Cut, SameLeft, Frame;
    if sizes == [] {
      StreamOfNone(sine, tones, repeats, c);
    } else {
      var k, rest := sizes[0], sizes[1..];
      SameLength(sine, tones, repeats, c, d, k);
      StreamSplits(sine, tones, repeats, c, k, Sum(rest));
      PiecesAgreeIff(sine, tones, repeats, Forward(tones, repeats, c, k),
                     Cut(tones, repeats, Forward(tones, repeats, d, k)), rest);
      HalvesAgree(Stream(sine, tones, repeats, c, k),
                  Stream(sine, tones, repeats, Forward(tones, repeats, c, k), Sum(rest)),
                  Stream(sine, tones, repeats, d, k),
                  Pieces(sine, tones, repeats, Cut(tones, repeats, Forward(tones, repeats, d, k)), rest));
    }
  }

  lemma HalvesAgree(a: seq<int>, b: seq<int>, c: seq<int>, d: seq<int>)
    requires |a| == |c|
    ensures c + d == a + b <==> a == c && b == d
  {
    if c + d == a + b {
      assert a == (a + b)[..|a|] && c == (c + d)[..|a|];
      assert b == (a + b)[|a|..] && d == (c + d)[|a|..];
    }
  }

  /**
   MAIN: for every list whose calls end and every split, the calls give the audio of one big call exactly
   when each of them, from where the one before it left the generator, plays what the list has there.
   */
  lemma CallsAgreeIff(sine: int -> int, tones: seq<SinParam>, repeats: bool, sizes: seq<nat>)
    requires |tones| > 0 && (repeats ==> FirstAudible(tones) < |tones|)
    ensures var c := At(0, FADE_POINTS, 0);
      Calls(sine, Open(tones, repeats), sizes) == Call(sine, Open(tones, repeats), 0, Sum(sizes)).frames
      <==> SameAudio(sine, tones, repeats, c, c, sizes)
  {
    var c := At(0, FADE_POINTS, 0);
    hide Stream, Next, Frame, Enter, Call, Calls, Pieces, SameAudio;
    OpenStands(tones, repeats);
    CallsFollowPieces(sine, Open(tones, repeats), sizes, c);
    CallFollowsStream(sine, Open(tones, repeats), 0, Sum(sizes), c);
    PiecesAgreeIff(sine, tones, repeats, c, c, sizes);
  }

  /** The frequency of the shipped key tone, 200 Hz. */
  const KEY_FREQ := 200 * 512

  /**
   So the split is audible for every unsafe list of plain 200 Hz tones and every sine that is 0 at phase 0
   and between 2^10 and 2^24 one sample later (a sine of amplitude 2^24 is 1 316 000 there).
   */
  lemma ChunkUnsafe(sine: int -> int, tones: seq<SinParam>, repeats: bool)
    requires |tones| > 0 && !ChunkSafe(tones, repeats)
    requires forall i :: 0 <= i < |tones| ==> tones[i].freq == KEY_FREQ && !tones[i].win
    requires sine(0) == 0 && 0x400 <= sine(419430) <= 0x100_0000
    ensures var m := Open(tones, repeats);
      var r := Call(sine, m, 0, 1);
      && Halts(r.maker, 1)
      && r.frames + Call(sine, r.maker, 0, 1).frames != Call(sine, m, 0, 2).frames
  {
    SplitDiffersIff(sine, tones, repeats);
    SecondFrame(sine, tones);
    hide Call, Frame, Sample;
    KeySamples(sine, tones[0], Increment(tones[0].decay) % PHASE_TURN);
    KeySamples(sine, Second(tones), 0);
  }

  lemma SecondFrame(sine: int -> int, tones: seq<SinParam>)
    requires |tones| > 0
    ensures var p := tones[0];
      Frame(sine, tones, At(0, FADE_POINTS, 1))
      == Sample(sine, p, Increment(p.freq) % PHASE_TURN, Increment(p.decay) % PHASE_TURN, TOTAL_VOLUME)
  {
    hide Sample, Increment;
  }

  lemma KeySamples(sine: int -> int, p: SinParam, w: nat)
    requires p.freq == KEY_FREQ && !p.win && sine(0) == 0 && 0x400 <= sine(419430) <= 0x100_0000
    ensures Sample(sine, p, 0, w, TOTAL_VOLUME) == 0
    ensures Sample(sine, p, Increment(p.freq) % PHASE_TURN, w, TOTAL_VOLUME) > 0
  {
    assert Increment(KEY_FREQ) % PHASE_TURN == 419430;
    var x := sine(419430);
    assert S32(x) == x;
    assert 1 <= TOTAL_VOLUME * x / TWO34 < 0x8000;
  }
}
