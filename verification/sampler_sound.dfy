/** SamplerSound: a decoded snippet of audio, the notes it answers to and the envelope timing
    a voice uses when it plays it. */
module SamplerSounds {
  import opened Wrappers
  import opened Numerics

  /** Envelope timing stored in the sound: attack and release in seconds, or the envelope
      library's own defaults when the source was unusable. */
  datatype EnvelopeParams = LibraryDefaults | Timed(attack: real, release: real)

  /** What the audio-format reader exposes: sample rate, channel count, frame count, and the
      samples its `read` call delivers (channel, frame) -> value, including the frames past
      the reported length that the guard padding asks for. */
  datatype Reader = Reader(sampleRate: real, numChannels: nat, lengthInSamples: int,
                           sample: (nat, nat) -> real)

  datatype SamplerSound = SamplerSound(
    sourceSampleRate: real,
    midiNotes: set<nat>,
    rootNote: int,
    /** usable frame count */
    length: int,
    /** one sequence per channel of `length + 4` frames; None when no buffer was allocated */
    data: Option<seq<seq<real>>>,
    params: EnvelopeParams)

  /** Frames kept after `length` so that interpolation may read ahead without a bounds check. */
  const GuardFrames: nat := 4

  /** Shape invariant of every constructed sound. */
  predicate WellFormed(s: SamplerSound)
  {
    && 0 <= s.length
    && (s.data.None? ==> s.length == 0)
    && (s.data.Some? ==>
          && |s.data.value| <= 2
          && forall c | 0 <= c < |s.data.value| :: |s.data.value[c]| == s.length + GuardFrames)
  }

  /** A sound a voice can read from: it holds a buffer with at least one channel. */
  predicate HasAudio(s: SamplerSound)
  {
    WellFormed(s) && s.data.Some? && 1 <= |s.data.value|
  }

  /** The constructor. A buffer is allocated and filled only for a source with a positive
      sample rate and a positive length; the usable length is the longest frame count that
      neither exceeds the source nor the maximum duration; at most two channels are kept. */
  function NewSamplerSound(source: Reader, notes: set<nat>, rootNote: int,
                           attackSecs: real, releaseSecs: real, maxSampleLengthSecs: real): (s: SamplerSound)
    requires 0.0 <= maxSampleLengthSecs
    ensures WellFormed(s)
    ensures s.midiNotes == notes && s.rootNote == rootNote && s.sourceSampleRate == source.sampleRate
    ensures s.data.Some? <==> 0.0 < source.sampleRate && 0 < source.lengthInSamples
    ensures s.data.None? ==> s.length == 0 && s.params == LibraryDefaults
    ensures s.data.Some? ==>
              && s.length <= source.lengthInSamples
              && s.length as real <= maxSampleLengthSecs * source.sampleRate
              && (s.length == source.lengthInSamples
                  || maxSampleLengthSecs * source.sampleRate < (s.length + 1) as real)
    ensures s.data.Some? ==>
              && |s.data.value| == Min(2, source.numChannels)
              && (forall c, i | 0 <= c < |s.data.value| && 0 <= i < s.length + GuardFrames ::
                    s.data.value[c][i] == source.sample(c, i))
              && s.params == Timed(attackSecs, releaseSecs)
  {
    if 0.0 < source.sampleRate && 0 < source.lengthInSamples then
      var length := Min(source.lengthInSamples, Trunc(maxSampleLengthSecs * source.sampleRate));
      var channels := Min(2, source.numChannels);
      var data := seq(channels, c requires 0 <= c < channels =>
                    seq(length + GuardFrames, i requires 0 <= i < length + GuardFrames => source.sample(c, i)));
      SamplerSound(source.sampleRate, notes, rootNote, length, Some(data), Timed(attackSecs, releaseSecs))
    else
      SamplerSound(source.sampleRate, notes, rootNote, 0, None, LibraryDefaults)
  }

  /** `appliesToNote`: bit n of the note set; a negative note number is never set. */
  function AppliesToNote(s: SamplerSound, midiNote: int): bool
  {
    0 <= midiNote && midiNote in s.midiNotes
  }

  /** `appliesToChannel`: the sound ignores the MIDI channel. */
  function AppliesToChannel(s: SamplerSound, midiChannel: int): bool
  {
    true
  }

  /** A constructed sound answers to exactly the notes it was given, on every channel. */
  lemma NoteMappingOfNewSound(source: Reader, notes: set<nat>, rootNote: int,
                              attackSecs: real, releaseSecs: real, maxSampleLengthSecs: real,
                              midiNote: int, midiChannel: int)
    requires 0.0 <= maxSampleLengthSecs
    ensures var s := NewSamplerSound(source, notes, rootNote, attackSecs, releaseSecs, maxSampleLengthSecs);
            && (AppliesToNote(s, midiNote) <==> 0 <= midiNote && midiNote as nat in notes)
            && AppliesToChannel(s, midiChannel)
  {
  }

}
