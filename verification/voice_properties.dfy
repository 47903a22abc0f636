/** Properties of the sampler voice that relate whole runs of the playing loop, and
    sequences of calls, to independent reference definitions. */
module VoiceProperties {
  import opened Wrappers
  import opened Numerics
  import opened AudioBuffers
  import opened SamplerSounds
  import opened SamplerVoices

  /** Source position after i frames, starting at `pos` and advancing by `pitch` per frame. */
  function Position(pos: real, pitch: real, i: nat): (r: real)
    ensures 0.0 <= pitch ==> pos <= r
  {
    MulMonotonic(0.0, i as real, if 0.0 <= pitch then pitch else 0.0);
    pos + i as real * pitch
  }

  /** Source position of the i-th frame of a run that starts at voice `v`. */
  function FramePos(v: Voice, i: nat): real
  {
    Position(v.pos, v.pitchRatio, i)
  }

  lemma PositionShift(pos: real, pitch: real, i: nat)
    ensures Position(pos + pitch, pitch, i) == Position(pos, pitch, i + 1)
  {
  }

  lemma MulMonotonic(a: real, b: real, p: real)
    requires a <= b && 0.0 <= p
    ensures a * p <= b * p
    ensures a < b && 0.0 < p ==> a * p < b * p
  {
    assert (b - a) * p >= 0.0;
  }

  lemma ZeroProduct(a: real, p: real)
    requires a * p == 0.0 && 0.0 < p
    ensures a == 0.0
  {
    if a < 0.0 {
      MulMonotonic(a, 0.0, p);
    } else if 0.0 < a {
      MulMonotonic(0.0, a, p);
    }
  }

  /** Number of frames a playing run of at most n frames emits when it starts at `pos`
      inside a sound of `length` frames: the first frame index at which the position has
      passed the length, or n if it never does within n frames. */
  function Emitted(pos: real, pitch: real, length: int, n: nat): (e: nat)
    requires 0.0 < pitch && pos <= length as real
    ensures e <= n && (0 < n ==> 1 <= e)
    ensures forall i: nat | i < e :: Position(pos, pitch, i) <= length as real
    ensures e < n ==> length as real < Position(pos, pitch, e)
    ensures 1 <= e ==> Position(pos, pitch, e) <= length as real + pitch
    decreases n
  {
    if n == 0 then 0
    else if length as real < pos + pitch then
      assert Position(pos, pitch, 0) == pos && Position(pos, pitch, 1) == pos + pitch;
      1
    else
      var e1 := Emitted(pos + pitch, pitch, length, n - 1);
      assert Position(pos, pitch, 0) == pos;
      assert forall i: nat | 1 <= i <= 1 + e1 :: Position(pos, pitch, i) == Position(pos + pitch, pitch, i - 1) by {
        forall i: nat | 1 <= i <= 1 + e1
          ensures Position(pos, pitch, i) == Position(pos + pitch, pitch, i - 1)
        {
          PositionShift(pos, pitch, i - 1);
        }
      }
      1 + e1
  }

  /** One step of the closed form: starting one pitch step later leaves one fewer frame. */
  lemma StepsShift(pos: real, pitch: real, length: int)
    requires 0.0 < pitch
    ensures ((length as real - (pos + pitch)) / pitch).Floor == ((length as real - pos) / pitch).Floor - 1
  {
    var x := (length as real - pos) / pitch;
    var x1 := (length as real - (pos + pitch)) / pitch;
    assert x * pitch == length as real - pos;
    assert x1 * pitch == length as real - pos - pitch;
    assert (x1 - (x - 1.0)) * pitch == 0.0;
    ZeroProduct(x1 - (x - 1.0), pitch);
  }

  /** The last step of the closed form: a position within one pitch step of passing the
      length has exactly one frame left. */
  lemma StepsLast(pos: real, pitch: real, length: int)
    requires 0.0 < pitch && pos <= length as real < pos + pitch
    ensures ((length as real - pos) / pitch).Floor == 0
  {
    var x := (length as real - pos) / pitch;
    assert x * pitch == length as real - pos;
    assert x < 1.0 by {
      if 1.0 <= x {
        MulMonotonic(1.0, x, pitch);
      }
    }
    assert 0.0 <= x by {
      if x < 0.0 {
        MulMonotonic(x, 0.0, pitch);
      }
    }
  }

  /** The count in closed form: every position up to the length, plus the one frame whose
      advance passes it, capped at n. */
  lemma {:induction false} EmittedClosedForm(pos: real, pitch: real, length: int, n: nat)
    requires 0.0 < pitch && pos <= length as real
    ensures Emitted(pos, pitch, length, n) == Min(n, ((length as real - pos) / pitch).Floor + 1)
    decreases n
  {
    if n == 0 {
      assert 0.0 <= (length as real - pos) / pitch;
    } else if length as real < pos + pitch {
      StepsLast(pos, pitch, length);
    } else {
      EmittedClosedForm(pos + pitch, pitch, length, n - 1);
      StepsShift(pos, pitch, length);
    }
  }

  /** The envelope value a run of n frames leaves as its starting gain. */
  function StartingGainAfter(v: Voice, env: seq<real>, first: bool, n: nat): real
    requires n <= |env|
  {
    if first && 0 < n then env[0] else v.startingGain
  }

  /** The voice after i frames of a run: its position advanced i steps and its starting gain
      taken from the envelope if the run is the block's first. */
  function After(v: Voice, env: seq<real>, first: bool, i: nat): Voice
    requires i <= |env|
  {
    v.(pos := FramePos(v, i), startingGain := StartingGainAfter(v, env, first, i))
  }

  /** i frames after the first frame are i + 1 frames after the start. */
  lemma AfterShift(v: Voice, env: seq<real>, first: bool, i: nat)
    requires i + 1 <= |env|
    ensures After(Advanced(v, env, first), env[1..], false, i) == After(v, env, first, i + 1)
    ensures env[1..][i..] == env[i + 1..]
  {
    PositionShift(v.pos, v.pitchRatio, i);
  }

  /** Output frame j of `after` is frame j of `before` with `f` mixed in additively: left and
      right into channels 0 and 1 of a stereo output, their mean into a mono one. */
  predicate Mixed(after: Buffer, before: Buffer, j: nat, f: Frame)
    requires 1 <= |before| && SameShape(after, before) && Rectangular(before) && j < Frames(before)
  {
    if 1 < |before| then after[0][j] == before[0][j] + f.l && after[1][j] == before[1][j] + f.r
    else after[0][j] == before[0][j] + (f.l + f.r) * 0.5
  }

  /** Nothing outside frames [k, k + e) of channels 0 and 1 is written. */
  predicate UntouchedOutside(after: Buffer, before: Buffer, k: nat, e: nat)
    requires SameShape(after, before)
  {
    forall c, j | 0 <= c < |before| && 0 <= j < |before[c]| && (2 <= c || j < k || k + e <= j) ::
      after[c][j] == before[c][j]
  }

  /** Output frame k + i holds frame i of the run mixed in, for every i < e: frame i
      interpolates the sound at FramePos(v, i) and is scaled by envelope value env[i]. */
  predicate MixesRun(v: Voice, sound: SamplerSound, after: Buffer, before: Buffer, k: nat, e: nat, env: seq<real>)
    requires HasAudio(sound) && 0.0 <= v.pos && 0.0 <= v.pitchRatio
    requires forall i: nat | i < e :: FramePos(v, i) < (sound.length + 3) as real
    requires 1 <= |before| && SameShape(after, before) && Rectangular(before) && k + e <= Frames(before)
    requires e <= |env|
  {
    forall i: nat | i < e ::
      Mixed(after, before, k + i, FrameAt(sound, FramePos(v, i), v.lgain, v.rgain, env[i]))
  }

  /** How a run of n frames that emitted e of them leaves the voice and the envelope stream:
      if the position never passed the length it ends at FramePos(v, n) having consumed n
      envelope values; otherwise the voice is exactly the hard stop of the voice at the first
      position past the length. */
  predicate EndsRun(v: Voice, sound: SamplerSound, n: nat, e: nat, env: seq<real>, first: bool, r: RenderResult)
    requires Framed(v) && v.current == Some(sound) && PlayReady(v)
    requires v.pos <= sound.length as real
    requires e == Emitted(v.pos, v.pitchRatio, sound.length, n)
    requires |env| >= n + Reserve(v)
  {
    && (FramePos(v, e) <= sound.length as real ==>
          r.voice == After(v, env, first, n) && r.env == env[n..])
    && (sound.length as real < FramePos(v, e) ==>
          var h := HardStop(After(v, env, first, e), env[e..]);
          r.voice == h.voice && r.env == h.env)
  }

  /** Reference behaviour of a playing run of n frames from output offset k, starting inside
      the sound: it emits `Emitted` frames and mixes exactly those, and ends as `EndsRun` says. */
  predicate PlaysFrames(v: Voice, sound: SamplerSound, out: Buffer, k: nat, n: nat,
                        env: seq<real>, first: bool, r: RenderResult)
    requires RunReady(v, sound, out, k, n, env)
    requires SameShape(r.out, out)
  {
    var e := Emitted(v.pos, v.pitchRatio, sound.length, n);
    && UntouchedOutside(r.out, out, k, e)
    && MixesRun(v, sound, r.out, out, k, e, env)
    && EndsRun(v, sound, n, e, env, first, r)
  }

  /** What a playing run of n frames from output offset k needs, starting inside the sound. */
  predicate RunReady(v: Voice, sound: SamplerSound, out: Buffer, k: nat, n: nat, env: seq<real>)
  {
    && Framed(v) && v.current == Some(sound) && PlayReady(v)
    && 1 <= |out| && Rectangular(out) && k + n <= Frames(out)
    && |env| >= n + Reserve(v)
    && v.pos <= sound.length as real
  }

  /** The voice after the first frame of a run. */
  function Advanced(v: Voice, env: seq<real>, first: bool): Voice
    requires 1 <= |env|
  {
    v.(pos := v.pos + v.pitchRatio, startingGain := if first then env[0] else v.startingGain)
  }

  /** A run of zero frames changes nothing. */
  lemma PlaysNoFrames(v: Voice, sound: SamplerSound, out: Buffer, k: nat, env: seq<real>, first: bool)
    requires RunReady(v, sound, out, k, 0, env)
    ensures PlaysFrames(v, sound, out, k, 0, env, first, PlayLoop(v, sound, out, k, 0, env, first))
  {
    assert FramePos(v, 0) == v.pos;
    assert env[0..] == env;
  }

  /** A run whose first frame already passes the length emits that frame and hard-stops. */
  lemma PlaysOneFrameThenStops(v: Voice, sound: SamplerSound, out: Buffer, k: nat, n: nat,
                               env: seq<real>, first: bool)
    requires RunReady(v, sound, out, k, n, env)
    requires 0 < n && sound.length as real < v.pos + v.pitchRatio
    ensures PlaysFrames(v, sound, out, k, n, env, first, PlayLoop(v, sound, out, k, n, env, first))
  {
    assert FramePos(v, 0) == v.pos;
    assert FramePos(v, 1) == v.pos + v.pitchRatio;
    assert Advanced(v, env, first) == After(v, env, first, 1);
  }

  /** The inductive step, for the frames left alone: a run that continues after its first frame. */
  lemma PlaysFramesStepOutput(v: Voice, sound: SamplerSound, out: Buffer, k: nat, n: nat,
                              env: seq<real>, first: bool, r: RenderResult)
    requires RunReady(v, sound, out, k, n, env)
    requires 0 < n && v.pos + v.pitchRatio <= sound.length as real
    requires var out1 := MixFrame(out, k, FrameAt(sound, v.pos, v.lgain, v.rgain, env[0]));
             && SameShape(r.out, out1)
             && UntouchedOutside(r.out, out1, k + 1, Emitted(v.pos + v.pitchRatio, v.pitchRatio, sound.length, n - 1))
             && MixesRun(Advanced(v, env, first), sound, r.out, out1, k + 1,
                         Emitted(v.pos + v.pitchRatio, v.pitchRatio, sound.length, n - 1), env[1..])
    ensures UntouchedOutside(r.out, out, k, Emitted(v.pos, v.pitchRatio, sound.length, n))
  {
  }

  /** The inductive step, for the mixed frames. */
  lemma PlaysFramesStepMix(v: Voice, sound: SamplerSound, out: Buffer, k: nat, n: nat,
                              env: seq<real>, first: bool, r: RenderResult)
    requires RunReady(v, sound, out, k, n, env)
    requires 0 < n && v.pos + v.pitchRatio <= sound.length as real
    requires var out1 := MixFrame(out, k, FrameAt(sound, v.pos, v.lgain, v.rgain, env[0]));
             && SameShape(r.out, out1)
             && UntouchedOutside(r.out, out1, k + 1, Emitted(v.pos + v.pitchRatio, v.pitchRatio, sound.length, n - 1))
             && MixesRun(Advanced(v, env, first), sound, r.out, out1, k + 1,
                         Emitted(v.pos + v.pitchRatio, v.pitchRatio, sound.length, n - 1), env[1..])
    ensures MixesRun(v, sound, r.out, out, k, Emitted(v.pos, v.pitchRatio, sound.length, n), env)
  {
    var f := FrameAt(sound, v.pos, v.lgain, v.rgain, env[0]);
    var out1 := MixFrame(out, k, f);
    var v1 := Advanced(v, env, first);
    var e := Emitted(v.pos, v.pitchRatio, sound.length, n);
    forall i: nat | i < e
      ensures Mixed(r.out, out, k + i, FrameAt(sound, FramePos(v, i), v.lgain, v.rgain, env[i]))
    {
      if i == 0 {
        assert FramePos(v, 0) == v.pos;
        assert env[0] == env[i];
        assert f == FrameAt(sound, FramePos(v, i), v.lgain, v.rgain, env[i]);
        assert Mixed(out1, out, k, f);
        assert r.out[0][k] == out1[0][k];
        assert 1 < |out| ==> r.out[1][k] == out1[1][k];
      } else {
        var e1 := Emitted(v.pos + v.pitchRatio, v.pitchRatio, sound.length, n - 1);
        assert i - 1 < e1;
        PositionShift(v.pos, v.pitchRatio, i - 1);
        assert FramePos(v1, i - 1) == FramePos(v, i);
        assert env[1..][i - 1] == env[i];
        var g := FrameAt(sound, FramePos(v, i), v.lgain, v.rgain, env[i]);
        assert FrameAt(sound, FramePos(v1, i - 1), v1.lgain, v1.rgain, env[1..][i - 1]) == g;
        assert Mixed(r.out, out1, k + 1 + (i - 1), g);
        assert k + i != k;
        assert out1[0][k + i] == out[0][k + i];
        assert 1 < |out| ==> out1[1][k + i] == out[1][k + i];
      }
    }

  }

  /** The inductive step, for the voice and the envelope stream, when the run stays inside
      the sound. */
  lemma PlaysFramesStepInside(v: Voice, sound: SamplerSound, n: nat, env: seq<real>, first: bool, r: RenderResult)
    requires Framed(v) && v.current == Some(sound) && PlayReady(v)
    requires |env| >= n + Reserve(v)
    requires 0 < n && v.pos + v.pitchRatio <= sound.length as real
    requires FramePos(v, Emitted(v.pos, v.pitchRatio, sound.length, n)) <= sound.length as real
    requires var v1 := Advanced(v, env, first);
             EndsRun(v1, sound, n - 1, Emitted(v1.pos, v1.pitchRatio, sound.length, n - 1), env[1..], false, r)
    ensures EndsRun(v, sound, n, Emitted(v.pos, v.pitchRatio, sound.length, n), env, first, r)
  {
    var v1 := Advanced(v, env, first);
    var e := Emitted(v.pos, v.pitchRatio, sound.length, n);
    var e1 := Emitted(v1.pos, v1.pitchRatio, sound.length, n - 1);
    assert e1 == e - 1;
    AfterShift(v, env, first, e1);
    AfterShift(v, env, first, n - 1);
  }

  /** The inductive step, for the voice and the envelope stream, when the run passes the
      length later on. */
  lemma PlaysFramesStepStopped(v: Voice, sound: SamplerSound, n: nat, env: seq<real>, first: bool, r: RenderResult)
    requires Framed(v) && v.current == Some(sound) && PlayReady(v)
    requires |env| >= n + Reserve(v)
    requires 0 < n && v.pos + v.pitchRatio <= sound.length as real
    requires sound.length as real < FramePos(v, Emitted(v.pos, v.pitchRatio, sound.length, n))
    requires var v1 := Advanced(v, env, first);
             EndsRun(v1, sound, n - 1, Emitted(v1.pos, v1.pitchRatio, sound.length, n - 1), env[1..], false, r)
    ensures EndsRun(v, sound, n, Emitted(v.pos, v.pitchRatio, sound.length, n), env, first, r)
  {
    var v1 := Advanced(v, env, first);
    var e := Emitted(v.pos, v.pitchRatio, sound.length, n);
    var e1 := Emitted(v1.pos, v1.pitchRatio, sound.length, n - 1);
    assert e1 == e - 1;
    AfterShift(v, env, first, e1);
    PositionShift(v.pos, v.pitchRatio, e1);
    assert FramePos(v1, e1) == FramePos(v, e);
  }

  /** The inductive step, for the voice and the envelope stream. */
  lemma PlaysFramesStepEnd(v: Voice, sound: SamplerSound, n: nat, env: seq<real>, first: bool, r: RenderResult)
    requires Framed(v) && v.current == Some(sound) && PlayReady(v)
    requires |env| >= n + Reserve(v)
    requires 0 < n && v.pos + v.pitchRatio <= sound.length as real
    requires var v1 := Advanced(v, env, first);
             EndsRun(v1, sound, n - 1, Emitted(v1.pos, v1.pitchRatio, sound.length, n - 1), env[1..], false, r)
    ensures EndsRun(v, sound, n, Emitted(v.pos, v.pitchRatio, sound.length, n), env, first, r)
  {
    if FramePos(v, Emitted(v.pos, v.pitchRatio, sound.length, n)) <= sound.length as real {
      PlaysFramesStepInside(v, sound, n, env, first, r);
    } else {
      PlaysFramesStepStopped(v, sound, n, env, first, r);
    }
  }

  /** After a first frame that does not pass the length, the rest of the run is ready too. */
  lemma RunReadyAdvance(v: Voice, sound: SamplerSound, out: Buffer, k: nat, n: nat, env: seq<real>, first: bool)
    requires RunReady(v, sound, out, k, n, env)
    requires 0 < n && v.pos + v.pitchRatio <= sound.length as real
    ensures RunReady(Advanced(v, env, first), sound, MixFrame(out, k, FrameAt(sound, v.pos, v.lgain, v.rgain, env[0])),
                     k + 1, n - 1, env[1..])
  {
  }

  /** The inductive step: if the rest of a run meets its reference behaviour, so does the run. */
  lemma PlaysFramesStep(v: Voice, sound: SamplerSound, out: Buffer, k: nat, n: nat,
                        env: seq<real>, first: bool, r: RenderResult)
    requires RunReady(v, sound, out, k, n, env)
    requires 0 < n && v.pos + v.pitchRatio <= sound.length as real
    requires var out1 := MixFrame(out, k, FrameAt(sound, v.pos, v.lgain, v.rgain, env[0]));
             && SameShape(r.out, out1)
             && PlaysFrames(Advanced(v, env, first), sound, out1, k + 1, n - 1, env[1..], false, r)
    ensures PlaysFrames(v, sound, out, k, n, env, first, r)
  {
    PlaysFramesStepOutput(v, sound, out, k, n, env, first, r);
    PlaysFramesStepMix(v, sound, out, k, n, env, first, r);
    PlaysFramesStepEnd(v, sound, n, env, first, r);
  }

  /** A frame that does not pass the length is mixed in and the loop goes on. */
  lemma PlayLoopContinues(v: Voice, sound: SamplerSound, out: Buffer, k: nat, n: nat,
                          env: seq<real>, first: bool)
    requires RunReady(v, sound, out, k, n, env)
    requires 0 < n && v.pos + v.pitchRatio <= sound.length as real
    ensures PlayLoop(v, sound, out, k, n, env, first)
         == PlayLoop(Advanced(v, env, first), sound, MixFrame(out, k, FrameAt(sound, v.pos, v.lgain, v.rgain, env[0])),
                     k + 1, n - 1, env[1..], false)
  {
  }

  /** A run that continues after its first frame meets its reference behaviour, given that
      the rest of the run does. */
  lemma {:induction false} PlaysFramesContinuing(v: Voice, sound: SamplerSound, out: Buffer, k: nat, n: nat,
                                                 env: seq<real>, first: bool)
    requires RunReady(v, sound, out, k, n, env)
    requires 0 < n && v.pos + v.pitchRatio <= sound.length as real
    ensures PlaysFrames(v, sound, out, k, n, env, first, PlayLoop(v, sound, out, k, n, env, first))
    decreases n, 0
  {
    var v1 := Advanced(v, env, first);
    var out1 := MixFrame(out, k, FrameAt(sound, v.pos, v.lgain, v.rgain, env[0]));
    RunReadyAdvance(v, sound, out, k, n, env, first);
    var r := PlayLoop(v1, sound, out1, k + 1, n - 1, env[1..], false);
    PlayLoopPlaysFrames(v1, sound, out1, k + 1, n - 1, env[1..], false);
    PlaysFramesStep(v, sound, out, k, n, env, first, r);
    PlayLoopContinues(v, sound, out, k, n, env, first);
  }

  /** The playing loop meets its reference behaviour. */
  lemma {:induction false} PlayLoopPlaysFrames(v: Voice, sound: SamplerSound, out: Buffer, k: nat, n: nat,
                                               env: seq<real>, first: bool)
    requires RunReady(v, sound, out, k, n, env)
    ensures PlaysFrames(v, sound, out, k, n, env, first, PlayLoop(v, sound, out, k, n, env, first))
    decreases n, 1
  {
    if n == 0 {
      PlaysNoFrames(v, sound, out, k, env, first);
    } else if sound.length as real < v.pos + v.pitchRatio {
      PlaysOneFrameThenStops(v, sound, out, k, n, env, first);
    } else {
      PlaysFramesContinuing(v, sound, out, k, n, env, first);
    }
  }

}
