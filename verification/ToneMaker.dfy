/**
 The resumable tone generator.  A caller asks for audio in chunks; the generator keeps
 its position (tone, remaining points, oscillator phases, volume) between calls.

 `Pass` is one turn of the generator's loop, `Call` a whole call.  `Cursor`, `Frame` and
 `Stream` describe the tone list itself, frame by frame, without any notion of a call.
 */
module ToneMaker {
  import opened CInt

  const TOTAL_VOLUME := 26843546
  const FADE_POINTS := 480
  const PHASE_TURN := 0x200_0000 // 2^25
  const TWO34 := 0x4_0000_0000
  const TWO64 := 0x1_0000_0000_0000_0000

  datatype SinParam = SinParam(freq: int, points: nat, win: bool, decay: int)

  datatype Maker = Maker(
    tones: seq<SinParam>,
    repeats: bool,
    id: nat,
    nextParam: bool,
    fadePoints: nat,
    volume: int,
    points: nat,
    sinIndex: nat,
    winIndex: nat)

  ghost predicate Valid(m: Maker) {
    m.id < |m.tones| && 0 <= m.volume && m.fadePoints <= FADE_POINTS && m.points <= m.tones[m.id].points &&
    m.sinIndex < PHASE_TURN && m.winIndex < PHASE_TURN &&
    (m.repeats && m.points == 0 ==> m.tones[m.id].points == 0)
  }

  function Open(tones: seq<SinParam>, repeats: bool): Maker
    requires |tones| > 0
  {
    Maker(tones, repeats, 0, true, FADE_POINTS, 0, tones[0].points, 0, 0)
  }

  /** Phase increment of a frequency given in 1/512 Hz, at 16 kHz. */
  function Increment(freq: int): nat {
    (PHASE_TURN * freq) % TWO64 / 16000 / 512
  }

  /** One sample from the oscillators; sine values are held in 32-bit integers. */
  function Sample(sine: int -> int, p: SinParam, phase: nat, winPhase: nat, volume: int): int {
    S16((if p.win then S32(sine(winPhase)) else volume) * S32(sine(phase)) / TWO34)
  }

  function PhaseAt(phase: nat, add: nat, k: nat): nat {
    (phase + k * add) % PHASE_TURN
  }

  function VolumeAt(volume: int, sub: int, k: nat): int {
    Max(0, volume - k * sub)
  }

  /** The `count` samples the inner loop writes from a given oscillator state. */
  function Segment(sine: int -> int, p: SinParam, phase: nat, winPhase: nat, volume: int, sub: int, count: nat): (r: seq<int>)
    ensures |r| == count
  {
    seq(count, k requires 0 <= k < count =>
      Sample(sine, p, PhaseAt(phase, Increment(p.freq), k), PhaseAt(winPhase, Increment(p.decay), k), VolumeAt(volume, sub, k)))
  }

  datatype PassResult = PassResult(maker: Maker, subVol: int, remaining: nat, frames: seq<int>, done: bool)

  function Arm(m: Maker): Maker {
    if m.nextParam then m.(volume := TOTAL_VOLUME, sinIndex := 0, winIndex := 0, nextParam := false) else m
  }

  /** Frames played by one turn of the loop. */
  function PassCount(m: Maker, remaining: nat): nat {
    Min(if m.fadePoints > 0 then m.fadePoints else m.points, remaining)
  }

  /** The volume decrement in force during a turn: it outlives the turn when the next tone is windowed. */
  function PassSub(m: Maker, subVol: int): int
    requires m.id < |m.tones|
  {
    if m.fadePoints > 0 then 0 else if m.tones[m.id].win then subVol else m.tones[m.id].decay
  }

  function Played(m: Maker, sub: int, count: nat): Maker
    requires m.id < |m.tones|
    requires count <= if m.fadePoints > 0 then m.fadePoints else m.points
  {
    var p := m.tones[m.id];
    m.(fadePoints := if m.fadePoints > 0 then m.fadePoints - count else 0,
       points := if m.fadePoints > 0 then m.points else m.points - count,
       volume := VolumeAt(m.volume, sub, count),
       sinIndex := PhaseAt(m.sinIndex, Increment(p.freq), count),
       winIndex := if p.win then PhaseAt(m.winIndex, Increment(p.decay), count) else m.winIndex)
  }

  function Following(m: Maker): nat {
    if m.id + 1 >= |m.tones| then 0 else m.id + 1
  }

  function Pass(sine: int -> int, m: Maker, subVol: int, remaining: nat): PassResult
    requires Valid(m)
  {
    var a := Arm(m);
    var count := PassCount(a, remaining);
    var sub := PassSub(a, subVol);
    var frames := Segment(sine, a.tones[a.id], a.sinIndex, a.winIndex, a.volume, sub, count);
    var b := Played(a, sub, count);
    Settle(b, sub, remaining - count, frames)
  }

  /** After a tone's last point the generator moves on, unless a one-shot list is over. */
  function Settle(b: Maker, sub: int, remaining: nat, frames: seq<int>): PassResult
    requires b.id < |b.tones|
  {
    if b.points > 0 then
      PassResult(b, sub, remaining, frames, remaining == 0)
    else if b.id + 1 >= |b.tones| && !b.repeats then
      PassResult(b, sub, remaining, frames, true)
    else
      var c := b.(id := Following(b), points := b.tones[Following(b)].points, nextParam := true);
      PassResult(c, sub, remaining, frames, remaining == 0)
  }

  // ---------- termination ----------

  /** Index of the first tone with points, or |tones|. */
  function FirstAudible(tones: seq<SinParam>): (q: nat)
    ensures q <= |tones|
    ensures q < |tones| ==> tones[q].points > 0
    ensures forall i :: 0 <= i < q ==> tones[i].points == 0
  {
    if tones == [] || tones[0].points > 0 then 0
    else
      var r := FirstAudible(tones[1..]);
      assert forall i :: 1 <= i < 1 + r ==> tones[i] == tones[1..][i - 1];
      1 + r
  }

  /** The loop ends for a request of `remaining` frames. */
  ghost predicate Halts(m: Maker, remaining: nat) {
    !m.repeats || FirstAudible(m.tones) < |m.tones| || remaining <= m.fadePoints
  }

  /** Turns without audio before an audible tone or the end of the list is reached. */
  function Distance(m: Maker): nat
    requires m.id < |m.tones|
  {
    if !m.repeats then |m.tones| - m.id
    else var q := FirstAudible(m.tones);
         if m.id <= q then q - m.id else |m.tones| + q - m.id
  }

  /** Each turn consumes part of the request or moves closer to audio or to the end of the list. */
  lemma PassProgress(sine: int -> int, m: Maker, subVol: int, remaining: nat)
    requires Valid(m)
    ensures var r := Pass(sine, m, subVol, remaining);
      && Valid(r.maker)
      && r.maker.tones == m.tones && r.maker.repeats == m.repeats
      && r.remaining + |r.frames| == remaining
      && (!r.done && Halts(m, remaining) ==>
            Halts(r.maker, r.remaining) && (|r.frames| == 0 ==> Distance(r.maker) < Distance(m)))
  {
  }

  datatype CallResult = CallResult(maker: Maker, remaining: nat, frames: seq<int>)

  /** One call, started with the local volume decrement `subVol` (0 on entry). */
  function Call(sine: int -> int, m: Maker, subVol: int, remaining: nat): (r: CallResult)
    requires Valid(m) && Halts(m, remaining)
    ensures Valid(r.maker) && r.maker.tones == m.tones && r.maker.repeats == m.repeats
    ensures r.remaining + |r.frames| == remaining
    decreases remaining, Distance(m)
  {
    PassProgress(sine, m, subVol, remaining);
    var p := Pass(sine, m, subVol, remaining);
    if p.done then CallResult(p.maker, p.remaining, p.frames)
    else
      var rest := Call(sine, p.maker, p.subVol, p.remaining);
      rest.(frames := p.frames + rest.frames)
  }

  /** Result of turn number `t` of the loop, or of the turn that ended it. */
  function Turn(sine: int -> int, m: Maker, subVol: int, remaining: nat, t: nat): PassResult
    requires Valid(m)
    decreases t
  {
    PassProgress(sine, m, subVol, remaining);
    var p := Pass(sine, m, subVol, remaining);
    if t == 0 || p.done then p else Turn(sine, p.maker, p.subVol, p.remaining, t - 1)
  }

  lemma {:induction false} EndsWhenHalts(sine: int -> int, m: Maker, subVol: int, remaining: nat) returns (t: nat)
    requires Valid(m) && Halts(m, remaining)
    ensures Turn(sine, m, subVol, remaining, t).done
    decreases remaining, Distance(m)
  {
    PassProgress(sine, m, subVol, remaining);
    var p := Pass(sine, m, subVol, remaining);
    if p.done {
      t := 0;
    } else {
      t := EndsWhenHalts(sine, p.maker, p.subVol, p.remaining);
      t := t + 1;
    }
  }

  lemma {:induction false} SpinsForever(sine: int -> int, m: Maker, subVol: int, remaining: nat, t: nat)
    requires Valid(m) && !Halts(m, remaining)
    ensures !Turn(sine, m, subVol, remaining, t).done
    decreases t
  {
    PassProgress(sine, m, subVol, remaining);
    var p := Pass(sine, m, subVol, remaining);
    assert !p.done && !Halts(p.maker, p.remaining) by {
      assert forall i :: 0 <= i < |m.tones| ==> m.tones[i].points == 0;
    }
    if t > 0 {
      SpinsForever(sine, p.maker, p.subVol, p.remaining, t - 1);
    }
  }

  /** The loop ends exactly when the list is one-shot, has an audible tone, or the request fits the opening fade. */
  lemma LoopEndsIff(sine: int -> int, m: Maker, subVol: int, remaining: nat)
    requires Valid(m)
    ensures (exists t: nat :: Turn(sine, m, subVol, remaining, t).done) <==> Halts(m, remaining)
  {
    if Halts(m, remaining) {
      var t := EndsWhenHalts(sine, m, subVol, remaining);
    } else {
      forall t: nat
        ensures !Turn(sine, m, subVol, remaining, t).done
      {
        SpinsForever(sine, m, subVol, remaining, t);
      }
    }
  }
}
