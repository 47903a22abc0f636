/** Properties of the hard stop, of the one-shot flush of its fade block and of whole
    render calls. */
module StopProperties {
  import opened Wrappers
  import opened Numerics
  import opened AudioBuffers
  import opened SamplerSounds
  import opened SamplerVoices
  import opened VoiceProperties

  /** A render call that plays the assigned sound meets the reference behaviour of a run that
      starts at `startSample` and takes the first envelope value as its starting gain; when
      the run passes the sound's length the voice has released its note and armed the flush,
      otherwise it still holds the sound at the position reached after all its frames. */
  lemma RenderPlaysSound(v: Voice, sound: SamplerSound, out: Buffer, startSample: nat, numSamples: nat,
                         env: seq<real>)
    requires !v.isFading
    requires RunReady(v, sound, out, startSample, numSamples, env)
    ensures var r := Render(v, out, startSample, numSamples, env);
            PlaysFrames(v, sound, out, startSample, numSamples, env, true, r)
    ensures var r := Render(v, out, startSample, numSamples, env);
            var e := Emitted(v.pos, v.pitchRatio, sound.length, numSamples);
            && (!v.renderingFade && sound.length as real < FramePos(v, e) ==>
                  r.voice.current.None? && r.voice.isFading && r.voice.adsr.phase == Idle)
            && (FramePos(v, e) <= sound.length as real ==>
                  r.voice.current == Some(sound) && r.voice.pos == FramePos(v, numSamples)
                  && r.env == env[numSamples..])
  {
    PlayLoopPlaysFrames(v, sound, out, startSample, numSamples, env, true);
  }

  /** The first frame of a render that plays is the sound interpolated at the voice's
      position, scaled by the gains and the first envelope value, mixed into output frame
      `startSample`. */
  lemma RenderFirstFrame(v: Voice, sound: SamplerSound, out: Buffer, startSample: nat, numSamples: nat,
                         env: seq<real>)
    requires !v.isFading && 0 < numSamples
    requires RunReady(v, sound, out, startSample, numSamples, env)
    ensures Mixed(Render(v, out, startSample, numSamples, env).out, out, startSample,
                  FrameAt(sound, v.pos, v.lgain, v.rgain, env[0]))
  {
    RenderPlaysSound(v, sound, out, startSample, numSamples, env);
    assert FramePos(v, 0) == v.pos;
  }

  /** The hard stop keeps the block its capture rendered, faded out from the captured
      starting gain, and what the capture left of the envelope stream and the position. */
  lemma HardStopFadesCapture(v: Voice, env: seq<real>)
    requires Framed(v) && 0.0 <= v.pitchRatio && !v.renderingFade
    requires |env| >= v.bufferSize && CaptureReady(v)
    ensures var cap := Capture(v, env);
            var r := HardStop(v, env);
            && |cap.out| == 2 && |cap.out[0]| == v.bufferSize && |cap.out[1]| == v.bufferSize
            && r.env == cap.env
            && r.voice.pos == cap.voice.pos && r.voice.startingGain == cap.voice.startingGain
            && r.voice.fadeBuf == FadeOut(cap.out, EndSample(v.bufferSize, v.pitchRatio), cap.voice.startingGain)
  {
  }

  /** The hard stop's fade block is the block the capture rendered, ramped linearly from the
      captured starting gain down towards zero over the first EndSample frames, and silent
      after them; the envelope values it consumed are exactly the capture's. */
  lemma HardStopRampsCapture(v: Voice, env: seq<real>)
    requires Framed(v) && 0.0 <= v.pitchRatio && !v.renderingFade
    requires |env| >= v.bufferSize && CaptureReady(v)
    ensures var cap := Capture(v, env);
            var end := EndSample(v.bufferSize, v.pitchRatio);
            var r := HardStop(v, env);
            && |cap.out| == 2 && |cap.out[0]| == v.bufferSize && |cap.out[1]| == v.bufferSize
            && r.env == cap.env
            && forall c, i | 0 <= c < 2 && 0 <= i < v.bufferSize ::
                 r.voice.fadeBuf[c][i]
                 == if i < end then RampedSample(cap.out[c][i], cap.voice.startingGain, end, i) else 0.0
  {
    HardStopFadesCapture(v, env);
  }

  /** The block an ordinary hard stop captures is what the voice would have played: the
      capture is the reference run of a whole block from the voice's position into the
      cleared buffer, with the guard raised and the first envelope value as starting gain. */
  lemma CaptureIsReferenceRun(v: Voice, sound: SamplerSound, env: seq<real>)
    requires Framed(v) && !v.renderingFade && !v.isFading && v.current == Some(sound)
    requires HasAudio(sound) && 0.0 < v.pitchRatio && 0.0 <= v.pos <= sound.length as real
    requires |env| >= v.bufferSize
    ensures var silent := Zeros(2, v.bufferSize);
            var w := v.(fadeBuf := silent, renderingFade := true);
            RunReady(w, sound, silent, 0, v.bufferSize, env)
            && PlaysFrames(w, sound, silent, 0, v.bufferSize, env, true, Capture(v, env))
  {
    var silent := Zeros(2, v.bufferSize);
    var w := v.(fadeBuf := silent, renderingFade := true);
    assert Capture(v, env) == Render(w, silent, 0, v.bufferSize, env);
    RenderPlaysSound(w, sound, silent, 0, v.bufferSize, env);
  }

  /** Frame by frame, an ordinary capture holds the frames the voice plays from its position,
      left on channel 0 and right on channel 1, until the run passes the sound's length, and
      silence after that; its starting gain is the first envelope value. */
  lemma CapturedFrames(v: Voice, sound: SamplerSound, env: seq<real>)
    requires Framed(v) && !v.renderingFade && !v.isFading && v.current == Some(sound)
    requires HasAudio(sound) && 0.0 < v.pitchRatio && 0.0 <= v.pos <= sound.length as real
    requires |env| >= v.bufferSize
    ensures var cap := Capture(v, env);
            var e := Emitted(v.pos, v.pitchRatio, sound.length, v.bufferSize);
            && |cap.out| == 2 && |cap.out[0]| == v.bufferSize && |cap.out[1]| == v.bufferSize
            && (forall i | 0 <= i < e ::
                  var f := FrameAt(sound, FramePos(v, i), v.lgain, v.rgain, env[i]);
                  cap.out[0][i] == f.l && cap.out[1][i] == f.r)
            && (forall c, i | 0 <= c < 2 && e <= i < v.bufferSize :: cap.out[c][i] == 0.0)
            && (1 <= v.bufferSize ==> cap.voice.startingGain == env[0])
  {
    var silent := Zeros(2, v.bufferSize);
    var w := v.(fadeBuf := silent, renderingFade := true);
    CaptureIsReferenceRun(v, sound, env);
    var cap := Capture(v, env);
    var e := Emitted(v.pos, v.pitchRatio, sound.length, v.bufferSize);
    assert forall i: nat | i < e :: FramePos(w, i) == FramePos(v, i);
    if 1 <= v.bufferSize && sound.length as real < FramePos(w, e) {
      assert HardStop(After(w, env, true, e), env[e..]).voice == After(w, env, true, e);
    }
  }

  /** One sample of the capture's block below the frames the run emits, and the captured
      starting gain. */
  lemma CapturedFrame(v: Voice, sound: SamplerSound, env: seq<real>, c: nat, i: nat)
    requires Framed(v) && !v.renderingFade && !v.isFading && v.current == Some(sound)
    requires HasAudio(sound) && 0.0 < v.pitchRatio && 0.0 <= v.pos <= sound.length as real
    requires 1 <= v.bufferSize && |env| >= v.bufferSize && c < 2
    requires i < Emitted(v.pos, v.pitchRatio, sound.length, v.bufferSize)
    ensures 0.0 <= FramePos(v, i) < (sound.length + 3) as real
    ensures |Capture(v, env).out| == 2 && |Capture(v, env).out[c]| == v.bufferSize
    ensures Capture(v, env).voice.startingGain == env[0]
    ensures Capture(v, env).out[c][i] == Channel(FrameAt(sound, FramePos(v, i), v.lgain, v.rgain, env[i]), c)
  {
    CapturedFrames(v, sound, env);
  }

  /** The left (c == 0) or right (c == 1) value of a frame. */
  function Channel(f: Frame, c: nat): real
  {
    if c == 0 then f.l else f.r
  }

  /** Frame i of the fade block of an ordinary hard stop, for i below the ramp end and
      below the frames the run emits before passing the length: the frame the voice would
      have played i steps on, ramped from the first envelope value down towards zero. */
  lemma HardStopFadesPlayedFrame(v: Voice, sound: SamplerSound, env: seq<real>, c: nat, i: nat)
    requires Framed(v) && !v.renderingFade && !v.isFading && v.current == Some(sound)
    requires HasAudio(sound) && 0.0 < v.pitchRatio && 0.0 <= v.pos <= sound.length as real
    requires 1 <= v.bufferSize && |env| >= v.bufferSize && c < 2
    requires i < Emitted(v.pos, v.pitchRatio, sound.length, v.bufferSize)
    requires i < EndSample(v.bufferSize, v.pitchRatio)
    ensures HardStop(v, env).voice.fadeBuf[c][i]
         == RampedSample(Channel(FrameAt(sound, FramePos(v, i), v.lgain, v.rgain, env[i]), c),
                         env[0], EndSample(v.bufferSize, v.pitchRatio), i)
  {
    CapturedFrame(v, sound, env, c, i);
    HardStopRampsCapture(v, env);
  }

  /** During its capture a voice whose position has already passed the sound's length plays
      exactly one frame: the hard stop it triggers is ignored because the guard is raised,
      and the loop ends there. */
  lemma ExhaustedCapturePlaysOneFrame(v: Voice, sound: SamplerSound, out: Buffer, k: nat, n: nat,
                                      env: seq<real>, first: bool)
    requires v.renderingFade && Framed(v) && v.current == Some(sound) && PlayReady(v)
    requires 1 <= |out| && Rectangular(out) && k + n <= Frames(out) && n <= |env|
    requires 0 < n && sound.length as real < v.pos
    ensures PlayLoop(v, sound, out, k, n, env, first)
         == RenderResult(Advanced(v, env, first),
                         MixFrame(out, k, FrameAt(sound, v.pos, v.lgain, v.rgain, env[0])), env[1..])
  {
    var v1 := Advanced(v, env, first);
    assert sound.length as real < v1.pos by {
      assert 0.0 < v.pitchRatio;
    }
    assert HardStop(v1, env[1..]) == StopResult(v1, env[1..]);
  }

  /** The capture of a voice that has passed the sound's length renders its one frame into
      the first frame of the cleared block, consuming one envelope value, which becomes the
      starting gain. */
  lemma CaptureAfterExhaustion(v: Voice, sound: SamplerSound, env: seq<real>)
    requires Framed(v) && !v.renderingFade && !v.isFading && v.current == Some(sound)
    requires HasAudio(sound) && 0.0 < v.pitchRatio
    requires sound.length as real < v.pos < (sound.length + 3) as real
    requires 1 <= v.bufferSize && |env| >= v.bufferSize
    ensures var cap := Capture(v, env);
            var f := FrameAt(sound, v.pos, v.lgain, v.rgain, env[0]);
            && cap.env == env[1..]
            && cap.voice.pos == v.pos + v.pitchRatio && cap.voice.startingGain == env[0]
            && |cap.out| == 2 && |cap.out[0]| == v.bufferSize && |cap.out[1]| == v.bufferSize
            && cap.out[0][0] == f.l && cap.out[1][0] == f.r
            && forall c, i | 0 <= c < 2 && 1 <= i < v.bufferSize :: cap.out[c][i] == 0.0
  {
    var silent := Zeros(2, v.bufferSize);
    var w := v.(fadeBuf := silent, renderingFade := true);
    ExhaustedCapturePlaysOneFrame(w, sound, silent, 0, v.bufferSize, env, true);
    assert Capture(v, env) == Render(w, silent, 0, v.bufferSize, env);
    assert Capture(v, env) == PlayLoop(w, sound, silent, 0, v.bufferSize, env, true);
  }

  /** The hard stop that ends a note at the sound's length fades at most a single frame:
      every frame of the block after the first is silent, the first one too if the ramp is
      empty (a block shorter than one frame at this pitch), and the capture has consumed
      one envelope value and advanced the position by one step. */
  lemma ExhaustedStopFadesOneFrame(v: Voice, sound: SamplerSound, env: seq<real>)
    requires Framed(v) && !v.renderingFade && !v.isFading && v.current == Some(sound)
    requires HasAudio(sound) && 0.0 < v.pitchRatio
    requires sound.length as real < v.pos < (sound.length + 3) as real
    requires 1 <= v.bufferSize && |env| >= v.bufferSize
    ensures var r := HardStop(v, env);
            && r.env == env[1..]
            && r.voice.pos == v.pos + v.pitchRatio
            && (forall c, i | 0 <= c < 2 && 1 <= i < v.bufferSize :: r.voice.fadeBuf[c][i] == 0.0)
            && (EndSample(v.bufferSize, v.pitchRatio) == 0 ==>
                  r.voice.fadeBuf[0][0] == 0.0 && r.voice.fadeBuf[1][0] == 0.0)
  {
    CaptureAfterExhaustion(v, sound, env);
    HardStopFadesCapture(v, env);
    var cap := Capture(v, env);
    FadeOutSilentTail(cap.out, EndSample(v.bufferSize, v.pitchRatio), cap.voice.startingGain);
    FadeOutFirstFrame(cap.out, EndSample(v.bufferSize, v.pitchRatio), cap.voice.startingGain);
  }

  /** A capture that starts while a fade block is still waiting flushes the freshly cleared
      buffer onto itself instead of playing: it renders silence and consumes nothing. */
  lemma CaptureWhileFadingIsSilent(v: Voice, env: seq<real>)
    requires Framed(v) && !v.renderingFade && v.isFading
    requires |env| >= v.bufferSize
    ensures var cap := Capture(v, env);
            && cap.env == env && !cap.voice.isFading
            && |cap.out| == 2
            && forall c, i | 0 <= c < 2 && 0 <= i < |cap.out[c]| :: cap.out[c][i] == 0.0
  {
    var silent := Zeros(2, v.bufferSize);
    var w := v.(fadeBuf := silent, renderingFade := true);
    assert Capture(v, env) == Render(w, silent, 0, v.bufferSize, env);
  }

  /** A second hard stop while a fade block is still waiting discards that block: the
      capture's render flushes the freshly cleared buffer instead of playing, so the new fade
      block is silent, and no envelope value is consumed. */
  lemma HardStopWhileFadingIsSilent(v: Voice, env: seq<real>)
    requires Framed(v) && 0.0 <= v.pitchRatio && !v.renderingFade && v.isFading
    requires |env| >= v.bufferSize
    ensures var r := HardStop(v, env);
            && r.env == env && r.voice.isFading && r.voice.current.None?
            && forall c, i | 0 <= c < 2 && 0 <= i < v.bufferSize :: r.voice.fadeBuf[c][i] == 0.0
  {
    CaptureWhileFadingIsSilent(v, env);
    HardStopFadesCapture(v, env);
    var cap := Capture(v, env);
    FadeOutOfSilence(cap.out, EndSample(v.bufferSize, v.pitchRatio), cap.voice.startingGain);
  }

  /** The fade block is flushed exactly once: the first render after a hard stop overwrites
      frames [0, numSamples) of the output's first two channels with it, wherever the block
      was meant to start, consumes no envelope value and clears the flag; the render after
      that finds no note and leaves its output alone. */
  lemma FadeFlushIsOneShot(v: Voice, env: seq<real>,
                           out: Buffer, startSample: nat, numSamples: nat, env1: seq<real>,
                           out2: Buffer, startSample2: nat, numSamples2: nat, env2: seq<real>)
    requires Framed(v) && 0.0 <= v.pitchRatio && !v.renderingFade
    requires |env| >= v.bufferSize && CaptureReady(v)
    requires Rectangular(out) && numSamples <= v.bufferSize && (0 < |out| ==> numSamples <= Frames(out))
    requires Rectangular(out2)
    ensures var h := HardStop(v, env).voice;
            var f := Render(h, out, startSample, numSamples, env1);
            && f.env == env1 && !f.voice.isFading && f.voice.current.None?
            && SameShape(f.out, out)
            && (forall c, j | 0 <= c < |out| && 0 <= j < |out[c]| ::
                  f.out[c][j] == if c < 2 && j < numSamples then h.fadeBuf[c][j] else out[c][j])
            && Render(f.voice, out2, startSample2, numSamples2, env2) == RenderResult(f.voice, out2, env2)
  {
  }

  /** A read at a position the guard covers: with a pitch ratio below 3, every position a
      voice reads from, up to one step past the sound's length, has both interpolation
      frames inside the sound's `length + 4` frames. */
  lemma ReadsStayInGuard(sound: SamplerSound, pos: real, pitchRatio: real)
    requires HasAudio(sound) && 0.0 < pitchRatio < 3.0
    requires 0.0 <= pos <= sound.length as real + pitchRatio
    ensures pos.Floor + 1 < |sound.data.value[0]|
  {
    assert pos < (sound.length + 3) as real;
    assert pos.Floor <= sound.length + 2;
  }

  /** Without the bound the guard is overrun: a voice at the sound's last position with a
      pitch ratio of 3 or more hard-stops after its next frame, and the capture's first read
      then needs a frame at index `length + 4` or beyond, which the sound does not hold. */
  lemma GuardOverrunFromPitchThree(sound: SamplerSound, pitchRatio: real)
    requires HasAudio(sound) && 3.0 <= pitchRatio
    ensures var next := sound.length as real + pitchRatio;
            sound.length as real < next && (next.Floor + 1 >= |sound.data.value[0]|)
  {
    var next := sound.length as real + pitchRatio;
    assert (sound.length + 3) as real <= next;
    assert sound.length + 3 <= next.Floor;
  }

  /** At any pitch, the read at the position that passes the length, one step after the
      last emitted position `last`, stays inside the `length + 4` frames exactly when `last`
      is below `length + 3 - pitchRatio`; below pitch 3 that always holds. */
  lemma StopReadInsideGuard(sound: SamplerSound, last: real, pitchRatio: real)
    requires HasAudio(sound) && 0.0 < pitchRatio
    requires 0.0 <= last <= sound.length as real < last + pitchRatio
    ensures (last + pitchRatio).Floor + 1 < |sound.data.value[0]|
            <==> last < (sound.length + 3) as real - pitchRatio
  {
  }

  /** The overrun is reached from the start of a note: at pitch 3 from position 0, in a sound
      whose length is a multiple of 3, a long enough render emits `length / 3 + 1` frames,
      the last of them at exactly `length`, and stops at position `length + 3`, where the
      capture's read needs frame `length + 4`, one past the buffer. */
  lemma GuardOverrunReachedFromStart(sound: SamplerSound, n: nat)
    requires HasAudio(sound) && sound.length % 3 == 0 && sound.length / 3 + 1 < n
    ensures var e := Emitted(0.0, 3.0, sound.length, n);
            && e == sound.length / 3 + 1
            && Position(0.0, 3.0, e - 1) == sound.length as real
            && sound.length as real < Position(0.0, 3.0, e)
            && Position(0.0, 3.0, e).Floor + 1 == |sound.data.value[0]|
  {
    var m := sound.length / 3;
    EmittedClosedForm(0.0, 3.0, sound.length, n);
    assert (sound.length as real - 0.0) / 3.0 == m as real;
    assert Position(0.0, 3.0, m + 1) == (sound.length + 3) as real;
  }

  /** At unit pitch from the start of the sound a note plays `length + 1` frames, not
      `length`: the position must pass the length, not reach it, before the loop stops. */
  lemma UnitPitchPlaysLengthPlusOne(length: nat, n: nat)
    ensures Emitted(0.0, 1.0, length, n) == Min(n, length + 1)
  {
    EmittedClosedForm(0.0, 1.0, length, n);
    assert (length as real - 0.0) / 1.0 == length as real;
  }

  /** What one frame carries: the interpolated left channel scaled by the left gain and the
      envelope value; the right channel read from channel 1 of a stereo sound, or from the
      only channel of a mono one, so that equal gains give equal sides; and silence when the
      envelope value is zero. */
  lemma FrameAtChannels(s: SamplerSound, pos: real, lgain: real, rgain: real, e: real)
    requires HasAudio(s) && 0.0 <= pos < (s.length + 3) as real
    ensures var f := FrameAt(s, pos, lgain, rgain, e);
            && f.l == Interp(s.data.value[0], pos) * (lgain * e)
            && (1 < |s.data.value| ==> f.r == Interp(s.data.value[1], pos) * (rgain * e))
            && (|s.data.value| == 1 ==> f.r == Interp(s.data.value[0], pos) * (rgain * e))
            && (|s.data.value| == 1 && lgain == rgain ==> f.l == f.r)
            && (e == 0.0 ==> f == Frame(0.0, 0.0))
  {
    if e == 0.0 {
      assert lgain * e == 0.0 && rgain * e == 0.0;
    }
  }

  /** At a whole-numbered position the interpolation reads exactly that frame. */
  lemma InterpolationExactOnFrames(ch: seq<real>, i: nat)
    requires i + 1 < |ch|
    ensures Interp(ch, i as real) == ch[i]
  {
    assert (i as real).Floor == i;
  }

  /** Starting a note on a playable sound that holds audio, with a pitch ratio below 3,
      leaves a voice that satisfies the invariant and is ready to render it, with no frame
      played yet. */
  lemma StartNoteReadiesVoice(v: Voice, velocity: real, s: SynthSound, pitchRatio: real)
    requires Valid(v) && CanPlaySound(s) && HasAudio(s.sound) && 0.0 < pitchRatio < 3.0
    ensures var r := StartNote(v, velocity, s, pitchRatio);
            Valid(r) && PlayReady(r) && r.current == Some(s.sound)
  {
  }

  /** The first render after starting a note: if a fade block is still pending it is flushed
      and the note waits, unplayed, at position 0 for the next render; otherwise the render's
      first output frame receives the sound's frame 0 scaled by the velocity on both sides
      and by the first envelope value. */
  lemma StartedNoteFirstRender(v: Voice, velocity: real, s: SynthSound, pitchRatio: real,
                               out: Buffer, k: nat, n: nat, env: seq<real>)
    requires Valid(v) && CanPlaySound(s) && HasAudio(s.sound) && 0.0 < pitchRatio < 3.0
    requires 1 <= |out| && Rectangular(out) && k + n <= Frames(out)
    requires |env| >= n + v.bufferSize
    requires v.isFading ==> n <= v.bufferSize
    ensures var r := StartNote(v, velocity, s, pitchRatio);
            var f := Render(r, out, k, n, env);
            && (v.isFading ==>
                  f.env == env && !f.voice.isFading && f.voice.current == Some(s.sound) && f.voice.pos == 0.0)
            && (!v.isFading && 0 < n ==>
                  Mixed(f.out, out, k, FrameAt(s.sound, 0.0, velocity, velocity, env[0])))
  {
    StartNoteReadiesVoice(v, velocity, s, pitchRatio);
    var r := StartNote(v, velocity, s, pitchRatio);
    if !v.isFading && 0 < n {
      RenderFirstFrame(r, s.sound, out, k, n, env);
    }
  }
}
