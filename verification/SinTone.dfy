/**
 The tone generator object, updated in place by each call, proved against `ToneMaker.Call`.
 */
module SinTone {
  import opened CInt
  import opened ToneMaker
  import ToneSound
  import ToneStream

  /** Samples written per frame: stereo and quad are filled, any other channel count gets one sample. */
  function Copies(channel: nat): (r: nat)
    ensures 1 <= r <= 4
    ensures channel > 0 ==> r <= channel
  {
    if channel == 2 then 2 else if channel == 4 then 4 else 1
  }

  function Copied(v: int, copies: nat): seq<int>
    requires 1 <= copies <= 4
  {
    if copies == 1 then [v] else if copies == 2 then [v, v] else if copies == 3 then [v, v, v] else [v, v, v, v]
  }

  /** Frames as they lie in the PCM buffer. */
  function Interleaved(frames: seq<int>, copies: nat): seq<int>
    requires 1 <= copies <= 4
  {
    if frames == [] then []
    else Interleaved(frames[..|frames| - 1], copies) + Copied(frames[|frames| - 1], copies)
  }

  lemma InterleavedSnoc(frames: seq<int>, v: int, copies: nat)
    requires 1 <= copies <= 4
    ensures Interleaved(frames + [v], copies) == Interleaved(frames, copies) + Copied(v, copies)
  {
    var s := frames + [v];
    assert s[..|s| - 1] == frames;
  }

  ghost function Prepended(frames: seq<int>, r: CallResult): CallResult {
    r.(frames := frames + r.frames)
  }

  class SinToneMaker {
    const channel: nat
    const repeats: bool
    const tones: seq<SinParam>
    var id: nat
    var nextParam: bool
    var fadePoints: nat
    var volume: int
    var points: nat
    var sinIndex: nat
    var winSinIndex: nat

    function View(): Maker
      reads this
    {
      Maker(tones, repeats, id, nextParam, fadePoints, volume, points, sinIndex, winSinIndex)
    }

    constructor (param: seq<SinParam>, channel: nat, repeats: bool)
      requires |param| > 0
      ensures View() == Open(param, repeats) && this.channel == channel
    {
      this.channel, this.repeats, this.tones := channel, repeats, param;
      points, id, fadePoints, nextParam := param[0].points, 0, FADE_POINTS, true;
      volume, sinIndex, winSinIndex := 0, 0, 0;
    }

    /** `sin_tone_points`: the list's length; a one-shot run of it plays 480 frames more (`ToneStream.OneShotLength`). */
    method TonePoints() returns (points: nat)
      ensures points == ToneStream.Points(tones)
    {
      points := 0;
      var i := 0;
      while i < |tones|
        invariant i <= |tones|
        invariant points + ToneStream.Points(tones[i..]) == ToneStream.Points(tones)
      {
        points := points + tones[i].points;
        i := i + 1;
      }
    }

    /** Writes one frame at `pos`. */
    method WriteFrame(pcm: array<int>, pos: nat, value: int)
      requires pos + Copies(channel) <= pcm.Length
      modifies pcm
      ensures pcm[..pos + Copies(channel)] == old(pcm[..pos]) + Copied(value, Copies(channel))
      ensures pcm[pos + Copies(channel)..] == old(pcm[pos + Copies(channel)..])
    {
      pcm[pos] := value;
      if channel == 2 {
        pcm[pos + 1] := value;
      } else if channel == 4 {
        pcm[pos + 1] := value;
        pcm[pos + 2] := value;
        pcm[pos + 3] := value;
      }
    }

    /** Appends one frame to the frames written so far; what lies behind is still as in `was`. */
    method EmitFrame(pcm: array<int>, pos: nat, value: int, ghost written: seq<int>, ghost was: seq<int>)
      requires pos + Copies(channel) <= pcm.Length == |was|
      requires pcm[..pos] == Interleaved(written, Copies(channel)) && pcm[pos..] == was[pos..]
      modifies pcm
      ensures pcm[..pos + Copies(channel)] == Interleaved(written + [value], Copies(channel))
      ensures pcm[pos + Copies(channel)..] == was[pos + Copies(channel)..]
    {
      hide Interleaved, Copied, Copies;
      assert pcm[pos + Copies(channel)..] == pcm[pos..][Copies(channel)..] == was[pos + Copies(channel)..];
      InterleavedSnoc(written, value, Copies(channel));
      WriteFrame(pcm, pos, value);
    }

    /** Writes the samples of one turn after position `pos0`. */
    method Render(sine: int -> int, pcm: array<int>, pos0: nat, count: nat, subVol: int, ghost written: seq<int>)
      returns (pos: nat)
      requires id < |tones| && 0 <= volume
      requires pos0 + Copies(channel) * count <= pcm.Length
      requires pcm[..pos0] == Interleaved(written, Copies(channel))
      requires sinIndex < PHASE_TURN && winSinIndex < PHASE_TURN
      modifies this`volume, this`sinIndex, this`winSinIndex, pcm
      ensures pos == pos0 + Copies(channel) * count
      ensures var p := tones[id];
        var seg := Segment(sine, p, old(sinIndex), old(winSinIndex), old(volume), subVol, count);
        && pcm[..pos] == Interleaved(written + seg, Copies(channel))
        && pcm[pos..] == old(pcm[..])[pos..]
        && volume == VolumeAt(old(volume), subVol, count)
        && sinIndex == PhaseAt(old(sinIndex), Increment(p.freq), count)
        && winSinIndex == if p.win then PhaseAt(old(winSinIndex), Increment(p.decay), count) else old(winSinIndex)
    {
      hide Interleaved, Copied, Increment, PhaseAt, VolumeAt, Segment, Sample;
      var p := tones[id];
      var addIdx, winAddIdx := Increment(p.freq), Increment(p.decay);
      var left, copies := count, Copies(channel);
      pos := pos0;
      ghost var seg := Segment(sine, p, sinIndex, winSinIndex, volume, subVol, count);
      ghost var k, was := 0, pcm[..];
      PhaseSteps(sinIndex, addIdx, 0);
      PhaseSteps(winSinIndex, winAddIdx, 0);
      VolumeSteps(volume, subVol, 0);
      assert written + seg[..0] == written;
      while left > 0
        invariant 0 <= left <= count && k == count - left
        invariant pos0 + copies * count == pos + copies * left
        invariant pcm[..pos] == Interleaved(written + seg[..k], copies)
        invariant pcm[pos..] == was[pos..]
        invariant volume == VolumeAt(old(volume), subVol, k)
        invariant sinIndex == PhaseAt(old(sinIndex), addIdx, k)
        invariant winSinIndex == if p.win then PhaseAt(old(winSinIndex), winAddIdx, k) else old(winSinIndex)
      {
        var value := Sample(sine, p, sinIndex, winSinIndex, volume);
        SegmentAt(sine, p, old(sinIndex), old(winSinIndex), old(volume), subVol, count, k, winSinIndex);
        PhaseSteps(old(sinIndex), addIdx, k);
        PhaseSteps(old(winSinIndex), winAddIdx, k);
        VolumeSteps(old(volume), subVol, k);
        if p.win {
          winSinIndex := (winSinIndex + winAddIdx) % PHASE_TURN;
        }
        sinIndex := (sinIndex + addIdx) % PHASE_TURN;
        volume := volume - subVol;
        if volume < 0 {
          volume := 0;
        }
        assert copies * left == copies * (left - 1) + copies;
        assert copies * (left - 1) >= 0;
        EmitFrame(pcm, pos, value, written + seg[..k], was);
        assert written + seg[..k + 1] == (written + seg[..k]) + [value];
        pos, left, k := pos + copies, left - 1, k + 1;
      }
      assert seg[..count] == seg;
    }

    /** The start of the loop body: load a fresh tone, decide how many frames it plays now. */
    method StartTurn(remaining: nat, subVol0: int) returns (count: nat, subVol: int)
      requires id < |tones|
      modifies this
      ensures var a := Arm(old(View()));
        && count == PassCount(a, remaining) && subVol == PassSub(a, subVol0)
        && View() == if a.fadePoints > 0 then a.(fadePoints := a.fadePoints - count) else a.(points := a.points - count)
    {
      subVol := subVol0;
      if nextParam {
        volume := TOTAL_VOLUME;
        sinIndex := 0;
        winSinIndex := 0;
        nextParam := false;
      }
      if !tones[id].win {
        subVol := tones[id].decay;
      }
      if fadePoints > 0 {
        count := if fadePoints > remaining then remaining else fadePoints;
        subVol := 0;
        fadePoints := fadePoints - count;
      } else {
        count := if points > remaining then remaining else points;
        points := points - count;
      }
    }

    /** The body of the loop: one tone, or the part of it the request reaches. */
    method PlayTurn(sine: int -> int, pcm: array<int>, pos0: nat, subVol0: int, remaining0: nat, ghost written: seq<int>)
      returns (pos: nat, subVol: int, remaining: nat, more: bool)
      requires ToneMaker.Valid(View())
      requires pos0 + Copies(channel) * remaining0 <= pcm.Length
      requires pcm[..pos0] == Interleaved(written, Copies(channel))
      modifies this, pcm
      ensures var p := Pass(sine, old(View()), subVol0, remaining0);
        && View() == p.maker && subVol == p.subVol && remaining == p.remaining && more == !p.done
        && pos == pos0 + Copies(channel) * |p.frames| <= pcm.Length
        && pcm[..pos] == Interleaved(written + p.frames, Copies(channel))
        && pcm[pos..] == old(pcm[..])[pos..]
    {
      hide Interleaved, Increment, PhaseAt, VolumeAt, Segment, Copied, Copies;
      var count;
      ghost var armed := Arm(View());
      count, subVol := StartTurn(remaining0, subVol0);
      Scale(Copies(channel), remaining0 - count, count);
      assert Copies(channel) * (remaining0 - count) >= 0;
      remaining := remaining0 - count;
      pos := Render(sine, pcm, pos0, count, subVol, written);
      assert View() == Played(armed, subVol, count);
      more := MoveOn(remaining);
    }

    /** The end of the loop body: take up the next tone when this one is used up. */
    method MoveOn(remaining: nat) returns (more: bool)
      requires id < |tones|
      modifies this`id, this`points, this`nextParam
      ensures forall sub: int, frames: seq<int> ::
        var r := Settle(old(View()), sub, remaining, frames);
        r == PassResult(View(), sub, remaining, frames, !more)
    {
      var i := id;
      more := true;
      if points == 0 {
        i := i + 1;
        if i >= |tones| {
          if !repeats {
            more := false;
          } else {
            i := 0;
          }
        }
        if more {
          points := tones[i].points;
          id := i;
          nextParam := true;
        }
      }
      if remaining == 0 {
        more := false;
      }
    }

    /** Fills `pcm` with up to `len` bytes of audio; returns the bytes produced. */
    method Make(sine: int -> int, pcm: array<int>, len: nat) returns (made: int)
      requires ToneMaker.Valid(View())
      requires 0 < channel && len <= 2 * pcm.Length
      requires Halts(View(), len / 2 / channel)
      modifies this, pcm
      ensures var r := Call(sine, old(View()), 0, len / 2 / channel);
        var used := Copies(channel) * |r.frames|;
        && View() == r.maker
        && made == len - r.remaining * 2 * channel
        && used <= pcm.Length
        && pcm[..used] == Interleaved(r.frames, Copies(channel))
        && pcm[used..] == old(pcm[..])[used..]
      ensures forall c ::
        ToneStream.Stands(old(View()), c) && ToneSound.Tame(sine, tones) ==>
          var n := |Call(sine, old(View()), 0, len / 2 / channel).frames|;
          BufferSounds(sine, tones, repeats, c, pcm[..], n, Copies(channel))
    {
      hide Interleaved, Copies, Call, Prepended, Distance;
      ghost var before := View();
      var remaining: nat := len / 2 / channel;
      Fits(len, channel);
      var pos: nat, subVol := 0, 0;
      var more := true;
      ghost var written, was := [], pcm[..];
      ghost var whole := Call(sine, View(), 0, remaining);
      InterleavedNone(Copies(channel));
      NothingPrepended(whole);
      while more
        invariant ToneMaker.Valid(View()) && Making(sine, pcm, was, whole, pos, subVol, remaining, more, written)
        decreases more, remaining, Distance(View())
      {
        pos, subVol, remaining, more, written := Turn(sine, pcm, pos, subVol, remaining, written, was, whole);
      }
      made := len - remaining * 2 * channel;
      forall c | ToneStream.Stands(before, c) && ToneSound.Tame(sine, tones)
        ensures BufferSounds(sine, tones, repeats, c, pcm[..], |whole.frames|, Copies(channel))
      {
        CallInBuffer(sine, before, len / 2 / channel, c, pcm[..], Copies(channel));
      }
    }

    /** Between turns: what is written so far, and what the rest of the call will add. */
    ghost predicate Making(sine: int -> int, pcm: array<int>, was: seq<int>, whole: CallResult,
                           pos: nat, subVol: int, remaining: nat, more: bool, written: seq<int>)
      reads this, pcm
    {
      && ToneMaker.Valid(View())
      && |was| == pcm.Length
      && pos == Copies(channel) * |written| && pos <= pos + Copies(channel) * remaining <= pcm.Length
      && pcm[..pos] == Interleaved(written, Copies(channel)) && pcm[pos..] == was[pos..]
      && (more ==> Halts(View(), remaining) && whole == Prepended(written, Call(sine, View(), subVol, remaining)))
      && (!more ==> whole == CallResult(View(), remaining, written))
    }

    /** One turn of the loop, with the account of what is written. */
    method Turn(sine: int -> int, pcm: array<int>, pos0: nat, subVol0: int, remaining0: nat, ghost written0: seq<int>,
                ghost was: seq<int>, ghost whole: CallResult)
      returns (pos: nat, subVol: int, remaining: nat, more: bool, ghost written: seq<int>)
      requires Making(sine, pcm, was, whole, pos0, subVol0, remaining0, true, written0)
      modifies this, pcm
      ensures Making(sine, pcm, was, whole, pos, subVol, remaining, more, written)
      ensures more ==> remaining < remaining0 || (remaining == remaining0 && Distance(View()) < Distance(old(View())))
    {
      hide Interleaved, Pass, Copies, Call, Prepended, Distance, FirstAudible;
      ghost var m := View();
      ghost var p := Pass(sine, m, subVol0, remaining0);
      PassProgress(sine, m, subVol0, remaining0);
      CallUnfolds(sine, m, subVol0, remaining0, written0);
      ghost var tail := pcm[pos0..];
      pos, subVol, remaining, more := PlayTurn(sine, pcm, pos0, subVol0, remaining0, written0);
      written := written0 + p.frames;
      Scale(Copies(channel), |written0|, |p.frames|);
      Scale(Copies(channel), remaining, |p.frames|);
      assert pcm[pos..] == tail[pos - pos0..] == was[pos..];
    }
  }

  /**
   Sample for sample: each of the first `n` frames lies `copies` times in the buffer, with the size its place in
   the list gives it.
   */
  ghost predicate BufferSounds(sine: int -> int, tones: seq<SinParam>, repeats: bool, c: ToneStream.Cursor,
                               pcm: seq<int>, n: nat, copies: nat)
    requires ToneStream.Inside(tones, c)
  {
    && copies * n <= |pcm|
    && forall i, j :: 0 <= i < n && 0 <= j < copies ==>
      Lies(i, j, copies, n) && ToneSound.Sounds(sine, tones, ToneStream.Forward(tones, repeats, c, i), pcm[Place(i, j, copies)])
  }

  /** Index of copy `j` of frame `i`. */
  function Place(i: nat, j: nat, copies: nat): nat {
    copies * i + j
  }

  predicate Lies(i: nat, j: nat, copies: nat, n: nat) {
    Place(i, j, copies) < copies * n
  }

  lemma PlaceFits(i: nat, j: nat, copies: nat, n: nat)
    requires i < n && j < copies
    ensures Lies(i, j, copies, n)
  {
    assert copies * (i + 1) <= copies * n;
  }

  lemma CopiedAt(v: int, copies: nat, j: nat)
    requires 1 <= copies <= 4 && j < copies
    ensures |Copied(v, copies)| == copies && Copied(v, copies)[j] == v
  {
  }

  lemma {:induction false} InterleavedLength(frames: seq<int>, copies: nat)
    requires 1 <= copies <= 4
    ensures |Interleaved(frames, copies)| == copies * |frames|
    decreases |frames|
  {
    if frames != [] {
      InterleavedLength(frames[..|frames| - 1], copies);
      CopiedAt(frames[|frames| - 1], copies, 0);
      hide Copied;
      assert copies * |frames| == copies * (|frames| - 1) + copies;
    }
  }

  lemma {:induction false} InterleavedAt(frames: seq<int>, copies: nat, i: nat, j: nat)
    requires 1 <= copies <= 4 && i < |frames| && j < copies
    ensures |Interleaved(frames, copies)| == copies * |frames|
    ensures Lies(i, j, copies, |frames|) && Interleaved(frames, copies)[Place(i, j, copies)] == frames[i]
    decreases |frames|
  {
    var n := |frames| - 1;
    var init, last := Interleaved(frames[..n], copies), Copied(frames[n], copies);
    PlaceFits(i, j, copies, |frames|);
    InterleavedLength(frames, copies);
    InterleavedLength(frames[..n], copies);
    CopiedAt(frames[n], copies, j);
    assert Interleaved(frames, copies) == init + last;
    if i < n {
      InterleavedAt(frames[..n], copies, i, j);
      PlaceFits(i, j, copies, n);
    }
    hide Interleaved, Copied;
    assert i == n ==> Place(i, j, copies) == |init| + j;
  }

  lemma CallInBuffer(sine: int -> int, m: Maker, n: nat, c: ToneStream.Cursor, pcm: seq<int>, copies: nat)
    requires ToneStream.Stands(m, c) && Halts(m, n) && ToneSound.Tame(sine, m.tones) && 1 <= copies <= 4
    requires var frames := Call(sine, m, 0, n).frames;
      copies * |frames| <= |pcm| && pcm[..copies * |frames|] == Interleaved(frames, copies)
    ensures BufferSounds(sine, m.tones, m.repeats, c, pcm, |Call(sine, m, 0, n).frames|, copies)
  {
    ToneSound.CallSounds(sine, m, n, c);
    var frames := Call(sine, m, 0, n).frames;
    hide Call, Interleaved, Place, ToneSound.Sounds, ToneStream.Forward, ToneStream.Stands;
    forall i, j | 0 <= i < |frames| && 0 <= j < copies
      ensures Lies(i, j, copies, |frames|)
      ensures ToneSound.Sounds(sine, m.tones, ToneStream.Forward(m.tones, m.repeats, c, i), pcm[Place(i, j, copies)])
    {
      InterleavedAt(frames, copies, i, j);
      assert pcm[Place(i, j, copies)] == pcm[..copies * |frames|][Place(i, j, copies)];
    }
  }

  /** One, two and four channels are all filled. */
  lemma CopiesFill(channel: nat)
    ensures channel == 1 || channel == 2 || channel == 4 <==> Copies(channel) == channel
    ensures channel != 2 && channel != 4 ==> Copies(channel) == 1
  {
  }

  /** `sin_tone_open`: no generator for an empty list or without memory. */
  method SinToneOpen(param: seq<SinParam>, channel: nat, repeats: bool, memory: bool) returns (maker: SinToneMaker?)
    ensures maker == null <==> param == [] || !memory
    ensures maker != null ==> fresh(maker) && maker.View() == Open(param, repeats) && maker.channel == channel
  {
    if param == [] || !memory {
      return null;
    }
    maker := new SinToneMaker(param, channel, repeats);
  }

  lemma NothingPrepended(r: CallResult)
    ensures Prepended([], r) == r
  {
    assert [] + r.frames == r.frames;
  }

  /** A call is its first turn followed by the rest. */
  lemma CallUnfolds(sine: int -> int, m: Maker, sub: int, remaining: nat, written: seq<int>)
    requires ToneMaker.Valid(m) && Halts(m, remaining)
    ensures var p := Pass(sine, m, sub, remaining);
      && ToneMaker.Valid(p.maker) && (!p.done ==> Halts(p.maker, p.remaining))
      && Prepended(written, Call(sine, m, sub, remaining))
         == if p.done then CallResult(p.maker, p.remaining, written + p.frames)
            else Prepended(written + p.frames, Call(sine, p.maker, p.subVol, p.remaining))
  {
    PassProgress(sine, m, sub, remaining);
    var p := Pass(sine, m, sub, remaining);
    if !p.done {
      var rest := Call(sine, p.maker, p.subVol, p.remaining).frames;
      assert written + (p.frames + rest) == (written + p.frames) + rest;
    }
  }

  lemma Scale(c: nat, a: nat, b: nat)
    ensures c * (a + b) == c * a + c * b
  {
  }

  lemma InterleavedNone(copies: nat)
    requires 1 <= copies <= 4
    ensures Interleaved([], copies) == []
  {
  }

  lemma Fits(len: nat, channel: nat)
    requires channel > 0
    ensures Copies(channel) * (len / 2 / channel) <= len / 2
  {
    var n := len / 2;
    assert n / channel * channel <= n;
    assert Copies(channel) * (n / channel) <= channel * (n / channel);
  }

  /** Sample `k` of a segment; an unwindowed tone does not look at the window phase. */
  lemma SegmentAt(sine: int -> int, p: SinParam, phase: nat, winPhase: nat, volume: int, sub: int, count: nat, k: nat, w: nat)
    requires k < count && (p.win ==> w == PhaseAt(winPhase, Increment(p.decay), k))
    ensures Segment(sine, p, phase, winPhase, volume, sub, count)[k]
         == Sample(sine, p, PhaseAt(phase, Increment(p.freq), k), w, VolumeAt(volume, sub, k))
  {
  }

  lemma TurnAdds(x: nat, y: nat)
    ensures (x % PHASE_TURN + y) % PHASE_TURN == (x + y) % PHASE_TURN
  {
  }

  lemma NextMultiple(k: nat, add: nat)
    ensures k * add >= 0 && (k + 1) * add == k * add + add
  {
  }

  lemma PhaseSteps(phase: nat, add: nat, k: nat)
    requires phase < PHASE_TURN
    ensures PhaseAt(phase, add, 0) == phase && PhaseAt(phase, add, k) < PHASE_TURN
    ensures PhaseAt(phase, add, k + 1) == (PhaseAt(phase, add, k) + add) % PHASE_TURN
  {
    NextMultiple(k, add);
    TurnAdds(phase + k * add, add);
  }

  lemma VolumeSteps(volume: int, sub: int, k: nat)
    requires 0 <= volume
    ensures VolumeAt(volume, sub, 0) == volume && VolumeAt(volume, sub, k) >= 0
    ensures VolumeAt(volume, sub, k + 1) == Max(0, VolumeAt(volume, sub, k) - sub)
  {
    assert (k + 1) * sub == k * sub + sub;
    if sub >= 0 {
      assert k * sub >= 0;
    } else {
      assert k * sub <= 0;
    }
  }
}
