/** SamplerVoice: plays one SamplerSound at a time, resampling it by linear interpolation,
    shaping it with an envelope, and fading it out over one block when it is cut off.

    The voice is an immutable record; every operation returns the next record. The envelope
    generator is external: its transitions are recorded in `adsr`, and the values it would
    produce, one per rendered frame, are an input stream `env`. Rendering returns the part of
    the stream it did not consume. */
module SamplerVoices {
  import opened Wrappers
  import opened Numerics
  import opened AudioBuffers
  import opened SamplerSounds

  /** The last transition requested from the envelope generator. */
  datatype EnvelopePhase = Idle | Triggered | Released

  datatype Envelope = Envelope(sampleRate: Option<real>, params: EnvelopeParams, phase: EnvelopePhase)

  /** The synthesiser hands voices sounds of any kind; only SamplerSounds can be played here. */
  datatype SynthSound = Sampler(sound: SamplerSound) | OtherSound

  datatype Voice = Voice(
    /** frames per block, the capacity of the fade buffer */
    bufferSize: nat,
    /** sourceSamplePosition */
    pos: real,
    pitchRatio: real,
    lgain: real,
    rgain: real,
    /** a fade block is waiting to be flushed by the next render */
    isFading: bool,
    /** re-entrancy guard, set while a hard stop captures its fade block */
    renderingFade: bool,
    /** envelope value on the first frame of the latest playing render */
    startingGain: real,
    /** the sound currently assigned by the synthesiser */
    current: Option<SamplerSound>,
    adsr: Envelope,
    /** two channels of `bufferSize` frames */
    fadeBuf: Buffer)

  datatype Frame = Frame(l: real, r: real)

  datatype RenderResult = RenderResult(voice: Voice, out: Buffer, env: seq<real>)

  datatype StopResult = StopResult(voice: Voice, env: seq<real>)

  /** The fade buffer keeps its construction-time shape. */
  predicate Framed(v: Voice)
  {
    |v.fadeBuf| == 2 && |v.fadeBuf[0]| == v.bufferSize && |v.fadeBuf[1]| == v.bufferSize
  }

  /** Invariant between calls from the synthesiser: outside a fade capture, a voice with a
      sound assigned has not played past the sound's length. */
  predicate Valid(v: Voice)
  {
    && Framed(v)
    && !v.renderingFade
    && 0.0 <= v.pitchRatio
    && 0.0 <= v.pos
    && (v.current.Some? ==>
          && WellFormed(v.current.value)
          && 0.0 < v.pitchRatio
          && v.pos <= v.current.value.length as real)
  }

  /** What the playing path needs to read the sound in bounds. Outside a capture the
      position has not passed the length and the pitch ratio is below 3, so that the capture
      an exhaustion triggers, which starts up to one pitch step past the length, still reads
      inside the guard frames. Inside a capture that one read is what is left to check. */
  predicate PlayReady(v: Voice)
  {
    v.current.Some? ==>
      && HasAudio(v.current.value)
      && 0.0 < v.pitchRatio
      && 0.0 <= v.pos
      && (if v.renderingFade then v.pos < (v.current.value.length + 3) as real
          else v.pos <= v.current.value.length as real && v.pitchRatio < 3.0)
  }

  /** What a hard stop's capture needs: if it will take the playing path, its first read is
      inside the guard frames. */
  predicate CaptureReady(v: Voice)
  {
    v.current.Some? && !v.isFading ==>
      && HasAudio(v.current.value)
      && 0.0 < v.pitchRatio
      && 0.0 <= v.pos < (v.current.value.length + 3) as real
  }

  /** Envelope values a render call may need beyond its own frames: a whole capture block,
      unless it is itself the capture. */
  function Reserve(v: Voice): nat
  {
    if v.renderingFade then 0 else v.bufferSize
  }

  /** `b` is what is left of `a` after consuming some values from its front. */
  predicate IsSuffix(b: seq<real>, a: seq<real>)
  {
    |b| <= |a| && b == a[|a| - |b|..]
  }

  /** The constructor: an idle voice with a two-channel fade buffer of `bufferSize` frames. */
  function NewVoice(bufferSize: nat): (v: Voice)
    ensures Valid(v)
    ensures v.bufferSize == bufferSize && v.current.None? && !v.isFading
  {
    Voice(bufferSize, 0.0, 0.0, 0.0, 0.0, false, false, 0.0, None,
          Envelope(None, LibraryDefaults, Idle), Zeros(2, bufferSize))
  }

  /** `canPlaySound`: true exactly for SamplerSounds. */
  function CanPlaySound(s: SynthSound): (r: bool)
    ensures r <==> s != OtherSound
  {
    s.Sampler?
  }

  /** `startNote` for a sound the synthesiser has just assigned: playback restarts at frame 0
      with both gains set to the velocity, and the envelope is configured from the sound and
      triggered. Any other kind of sound leaves the voice as it was. The pitch ratio, which
      the source derives from the note, the root note and two sample rates, is a parameter. */
  function StartNote(v: Voice, velocity: real, s: SynthSound, pitchRatio: real): (r: Voice)
    requires s.Sampler? ==> 0.0 < pitchRatio
    ensures !CanPlaySound(s) ==> r == v
    ensures CanPlaySound(s) ==>
              && r.current == Some(s.sound)
              && r.pos == 0.0
              && r.lgain == velocity && r.rgain == velocity
              && r.pitchRatio == pitchRatio
              && r.adsr == Envelope(Some(s.sound.sourceSampleRate), s.sound.params, Triggered)
    ensures CanPlaySound(s) ==>
              && r.bufferSize == v.bufferSize && r.fadeBuf == v.fadeBuf
              && r.isFading == v.isFading && r.renderingFade == v.renderingFade
              && r.startingGain == v.startingGain
    ensures Valid(v) && (CanPlaySound(s) ==> WellFormed(s.sound)) ==> Valid(r)
  {
    match s
    case Sampler(sound) =>
      v.(current := Some(sound), pitchRatio := pitchRatio, pos := 0.0,
         lgain := velocity, rgain := velocity,
         adsr := Envelope(Some(sound.sourceSampleRate), sound.params, Triggered))
    case OtherSound => v
  }

  /** Length of the fade ramp: the whole block, or the block scaled down by a pitch ratio
      below 1, truncated. */
  function EndSample(bufferSize: nat, pitchRatio: real): (e: nat)
    requires 0.0 <= pitchRatio
    ensures e <= bufferSize
    ensures 1.0 <= pitchRatio ==> e == bufferSize
    ensures pitchRatio < 1.0 ==> e as real <= bufferSize as real * pitchRatio < e as real + 1.0
  {
    if pitchRatio < 1.0 then
      var x := bufferSize as real * pitchRatio;
      assert 0.0 <= x <= bufferSize as real by {
        ScaledWithin(bufferSize as real, pitchRatio);
      }
      var t := Trunc(x);
      assert t as real <= x < t as real + 1.0;
      t
    else bufferSize
  }

  /** Linear interpolation between frame floor(pos) and the next one. */
  function Interp(ch: seq<real>, pos: real): (r: real)
    requires 0.0 <= pos && pos.Floor + 1 < |ch|
    ensures ch[pos.Floor] <= ch[pos.Floor + 1] ==> ch[pos.Floor] <= r <= ch[pos.Floor + 1]
    ensures ch[pos.Floor + 1] <= ch[pos.Floor] ==> ch[pos.Floor + 1] <= r <= ch[pos.Floor]
    ensures pos == pos.Floor as real ==> r == ch[pos.Floor]
  {
    var i := pos.Floor;
    var alpha := pos - i as real;
    ConvexBetween(ch[i], ch[i + 1], alpha);
    ch[i] * (1.0 - alpha) + ch[i + 1] * alpha
  }

  /** The left and right values one frame contributes at source position `pos` with
      envelope value `e`; a one-channel sound contributes its only channel on both sides. */
  function FrameAt(s: SamplerSound, pos: real, lgain: real, rgain: real, e: real): Frame
    requires HasAudio(s) && 0.0 <= pos < (s.length + 3) as real
  {
    var data := s.data.value;
    var l := Interp(data[0], pos);
    var r := if |data| > 1 then Interp(data[1], pos) else l;
    Frame(l * (lgain * e), r * (rgain * e))
  }

  /** Additive mixing of one frame at offset k: left and right into channels 0 and 1 of a
      stereo (or wider) output, their mean into a mono one. */
  function MixFrame(out: Buffer, k: nat, f: Frame): (r: Buffer)
    requires 1 <= |out| && Rectangular(out) && k < Frames(out)
    ensures SameShape(r, out)
    ensures forall c, j | 0 <= c < |out| && 0 <= j < |out[c]| && (2 <= c || j != k) :: r[c][j] == out[c][j]
    ensures |out| > 1 ==> r[0][k] == out[0][k] + f.l && r[1][k] == out[1][k] + f.r
    ensures |out| == 1 ==> r[0][k] == out[0][k] + (f.l + f.r) * 0.5
  {
    if |out| > 1 then AddSample(AddSample(out, 0, k, f.l), 1, k, f.r)
    else AddSample(out, 0, k, (f.l + f.r) * 0.5)
  }

  /** `stopNote (velocity, false)`: the hard stop. Ignored while a capture is running;
      otherwise it renders one block of what the voice would have played into the cleared
      fade buffer, ramps that block down to silence from the captured starting gain, zeroes
      what follows the ramp, arms the one-shot flush and releases the note. */
  function HardStop(v: Voice, env: seq<real>): (r: StopResult)
    requires Framed(v) && 0.0 <= v.pitchRatio
    requires !v.renderingFade ==> |env| >= v.bufferSize && CaptureReady(v)
    ensures v.renderingFade ==> r == StopResult(v, env)
    ensures !v.renderingFade ==>
              && !r.voice.renderingFade && r.voice.isFading && r.voice.current.None?
              && r.voice.adsr.phase == Idle
    ensures Framed(r.voice) && r.voice.bufferSize == v.bufferSize
    ensures !v.renderingFade ==>
              forall c, i | 0 <= c < 2 && EndSample(v.bufferSize, v.pitchRatio) <= i < v.bufferSize ::
                r.voice.fadeBuf[c][i] == 0.0
    ensures r.voice.pitchRatio == v.pitchRatio && r.voice.lgain == v.lgain && r.voice.rgain == v.rgain
    ensures v.pos <= r.voice.pos
    ensures IsSuffix(r.env, env)
    ensures !v.renderingFade && 0.0 <= v.pos ==> Valid(r.voice)
    decreases if v.renderingFade then 0 else 1, 0, 1
  {
    if v.renderingFade then StopResult(v, env)
    else
      var cap := Capture(v, env);
      var end := EndSample(v.bufferSize, cap.voice.pitchRatio);
      var g := cap.voice.startingGain;
      var faded := FadeOut(cap.out, end, g);
      StopResult(cap.voice.(renderingFade := false, fadeBuf := faded, isFading := true,
                            current := None, adsr := cap.voice.adsr.(phase := Idle)),
                 cap.env)
  }

  /** The first half of a hard stop: clear the fade buffer, raise the re-entrancy guard and
      render one whole block into the fade buffer. */
  function Capture(v: Voice, env: seq<real>): (r: RenderResult)
    requires Framed(v) && !v.renderingFade
    requires |env| >= v.bufferSize && CaptureReady(v)
    ensures |r.out| == 2 && |r.out[0]| == v.bufferSize && |r.out[1]| == v.bufferSize
    ensures r.voice.renderingFade
    ensures Framed(r.voice) && r.voice.bufferSize == v.bufferSize
    ensures r.voice.pitchRatio == v.pitchRatio && r.voice.lgain == v.lgain && r.voice.rgain == v.rgain
    ensures v.pos <= r.voice.pos
    ensures IsSuffix(r.env, env)
    decreases 1, 0, 0
  {
    var silent := Zeros(2, v.bufferSize);
    Render(v.(fadeBuf := silent, renderingFade := true), silent, 0, v.bufferSize, env)
  }

  /** `stopNote`: with tail-off only the envelope is released; without it, a hard stop. */
  function StopNote(v: Voice, allowTailOff: bool, env: seq<real>): (r: StopResult)
    requires Framed(v) && 0.0 <= v.pitchRatio
    requires !allowTailOff && !v.renderingFade ==> |env| >= v.bufferSize && CaptureReady(v)
    ensures allowTailOff ==>
              && r.env == env && r.voice.adsr.phase == Released
              && r.voice.(adsr := v.adsr) == v && r.voice.adsr.(phase := v.adsr.phase) == v.adsr
    ensures !allowTailOff && v.renderingFade ==> r == StopResult(v, env)
    ensures !allowTailOff && !v.renderingFade ==>
              && !r.voice.renderingFade && r.voice.isFading && r.voice.current.None?
              && r.voice.adsr.phase == Idle && IsSuffix(r.env, env)
    ensures Valid(v) ==> Valid(r.voice)
  {
    if allowTailOff then StopResult(v.(adsr := v.adsr.(phase := Released)), env)
    else HardStop(v, env)
  }

  /** `renderNextBlock`: flush a pending fade block, or play the assigned sound, or do
      nothing. The flush overwrites frames [0, numSamples) of the first two output channels,
      whatever `startSample` is. */
  function Render(v: Voice, out: Buffer, startSample: nat, numSamples: nat, env: seq<real>): (r: RenderResult)
    requires Framed(v) && Rectangular(out)
    requires v.isFading ==> numSamples <= v.bufferSize && (0 < |out| ==> numSamples <= Frames(out))
    requires !v.isFading && v.current.Some? ==>
               && PlayReady(v)
               && 1 <= |out| && startSample + numSamples <= Frames(out)
               && |env| >= numSamples + Reserve(v)
    ensures v.isFading ==> r == RenderResult(v.(isFading := false), CopyPrefix(out, v.fadeBuf, numSamples), env)
    ensures !v.isFading && v.current.None? ==> r == RenderResult(v, out, env)
    ensures SameShape(r.out, out)
    ensures Framed(r.voice) && r.voice.bufferSize == v.bufferSize
    ensures r.voice.pitchRatio == v.pitchRatio && r.voice.lgain == v.lgain && r.voice.rgain == v.rgain
    ensures r.voice.renderingFade == v.renderingFade
    ensures v.pos <= r.voice.pos
    ensures IsSuffix(r.env, env)
    ensures Valid(v) ==> Valid(r.voice)
    decreases if v.renderingFade then 0 else 1, 2, 0
  {
    if v.isFading then
      RenderResult(v.(isFading := false), CopyPrefix(out, v.fadeBuf, numSamples), env)
    else if v.current.Some? then
      PlayLoop(v, v.current.value, out, startSample, numSamples, env, true)
    else
      RenderResult(v, out, env)
  }

  /** The playing loop of `renderNextBlock`, from output frame k with n frames to go: each
      frame interpolates the sound at the current position, takes one envelope value (the
      first one of the call becomes the starting gain), mixes into the output and advances
      the position by the pitch ratio; once the position passes the sound's length the voice
      hard-stops itself and the loop ends. */
  function PlayLoop(v: Voice, sound: SamplerSound, out: Buffer, k: nat, n: nat,
                    env: seq<real>, first: bool): (r: RenderResult)
    requires Framed(v) && v.current == Some(sound) && PlayReady(v)
    requires 1 <= |out| && Rectangular(out) && k + n <= Frames(out)
    requires |env| >= n + Reserve(v)
    ensures SameShape(r.out, out)
    ensures Framed(r.voice) && r.voice.bufferSize == v.bufferSize
    ensures r.voice.pitchRatio == v.pitchRatio && r.voice.lgain == v.lgain && r.voice.rgain == v.rgain
    ensures r.voice.renderingFade == v.renderingFade
    ensures v.pos <= r.voice.pos
    ensures IsSuffix(r.env, env)
    ensures Valid(v) ==> Valid(r.voice)
    decreases if v.renderingFade then 0 else 1, 1, n
  {
    if n == 0 then RenderResult(v, out, env)
    else
      var f := FrameAt(sound, v.pos, v.lgain, v.rgain, env[0]);
      var out1 := MixFrame(out, k, f);
      var v1 := v.(pos := v.pos + v.pitchRatio, startingGain := if first then env[0] else v.startingGain);
      if v1.pos > sound.length as real then
        var s := HardStop(v1, env[1..]);
        RenderResult(s.voice, out1, s.env)
      else
        PlayLoop(v1, sound, out1, k + 1, n - 1, env[1..], false)
  }

}
