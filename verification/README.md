# Sampler voice model

A Dafny model of JUCE's sampler from `juce_Sampler.cpp`, in the variant whose voice fades out
over one block when it is cut off.

- A **SamplerSound** holds a snippet of audio decoded from a reader, the MIDI notes it answers to, its root note and its envelope timing. The constructor allocates a buffer only for a usable source. The buffer keeps at most two channels, a length capped by a maximum duration, and four guard frames past that length.
- A **SamplerVoice** plays one sound at a time. It resamples the sound by linear interpolation at a pitch ratio, scales each frame by a per-channel gain and an envelope value, and mixes the result additively into the output.
- A *hard stop* (`stopNote` without tail-off) renders one more block into the voice's fade buffer. It ramps that block down from the first envelope value it used, clears what follows the ramp and arms a one-shot flag. The next `renderNextBlock` copies the fade block to the output instead of playing.
- A voice whose position passes the sound's length hard-stops itself from inside the render loop. That stop renders into the fade buffer again, and a re-entrancy guard (`renderingFade`) turns the innermost stop into a no-op.

## How the model is built

- The voice is an immutable record (`SamplerVoices.Voice`); every operation returns the next record.
- The stop → render → stop re-entry is explicit mutual recursion between `HardStop`, `Capture`, `Render` and `PlayLoop`. Termination is by the guard flag, then the call kind, then the frames left.
- The envelope generator is outside the file. Its values, one per rendered frame, are an input stream `env: seq<real>`. Render and stop calls return the part of the stream they did not consume. The transitions the voice requests (trigger, release, reset) are recorded as a phase.
- Audio buffers are `seq<seq<real>>`; a sound's data is `length + 4` frames per channel.
- The pitch ratio, which the source computes with `std::pow` from the note, the root note and two sample rates, is a parameter of `StartNote`.
- The reader's `read` is a function from (channel, frame) to a value.
- `VoiceProperties` gives reference definitions for a whole run of the playing loop and proves the loop meets them by induction:
  - `Position`: the source position after i frames;
  - `Emitted`: how many frames a run emits;
  - `MixesRun`: what each output frame receives;
  - `EndsRun`: the voice and stream at the end, including the hard stop at exhaustion.
- `StopProperties` states what a hard stop leaves in the fade buffer and how the flush behaves.

Three behaviours of the code are easy to misread; the model follows the code:

- The fade flush overwrites output frames `[0, numSamples)` with `copyFrom`. It does not add, and it ignores `startSample`. JUCE documents `SynthesiserVoice::renderNextBlock` as adding into the buffer, and only between `startSample` and `startSample + numSamples`; the flush does neither (`StopProperties.FadeFlushIsOneShot`).
- The loop stops only once the position *exceeds* the length. At pitch 1 from position 0, a sound of `length` frames therefore plays `length + 1` frames (`StopProperties.UnitPitchPlaysLengthPlusOne`).
- A sound built from an unusable source has no data. Rendering it dereferences a null buffer, so rendering it is excluded by precondition rather than modelled as silence.

## Model

| member | source | states |
|---|---|---|
| Numerics.Trunc | modules/juce_audio_formats/sampler/juce_Sampler.cpp:43-44 | the C++ `(int)` cast of a floating value truncates toward zero: the result is the integer within one of the argument on the side of zero |
| SamplerSounds.NewSamplerSound | modules/juce_audio_formats/sampler/juce_Sampler.cpp:29-53 | data exists exactly when the sample rate and the source length are positive; the length is the largest count within both the source length and the maximum duration; at most two channels of `length + 4` frames hold the reader's samples; without data the length is 0 and the envelope keeps library defaults |
| SamplerSounds.NoteMappingOfNewSound | modules/juce_audio_formats/sampler/juce_Sampler.cpp:59-67 | a constructed sound applies to a note exactly when the note was in the set it was given, and to every MIDI channel |
| SamplerVoices.NewVoice | modules/juce_audio_formats/sampler/juce_Sampler.cpp:70-73 | a new voice has a two-channel fade buffer of `bufferSize` frames, no note and no pending fade, and satisfies the voice invariant |
| SamplerVoices.CanPlaySound | modules/juce_audio_formats/sampler/juce_Sampler.cpp:77-80 | the voice accepts exactly the sounds that are SamplerSounds and refuses every other kind |
| SamplerVoices.StartNote | modules/juce_audio_formats/sampler/juce_Sampler.cpp:85-110 | a sampler sound restarts playback at position 0 with both gains equal to the velocity and triggers the envelope configured from the sound; any other sound changes nothing; the voice invariant is preserved |
| StopProperties.StartNoteReadiesVoice | modules/juce_audio_formats/sampler/juce_Sampler.cpp:92-104 | after starting a note on a sound with audio at a pitch ratio below 3, the voice keeps the invariant, holds the sound and is ready to render it |
| StopProperties.StartedNoteFirstRender | modules/juce_audio_formats/sampler/juce_Sampler.cpp:92-104 | the render after `startNote` first flushes a fade block still pending, leaving the note unplayed at position 0 with no envelope value consumed; otherwise its first output frame receives the sound's frame 0 scaled by the velocity and the first envelope value |
| StopProperties.RenderFirstFrame | modules/juce_audio_formats/sampler/juce_Sampler.cpp:197-226 | the first frame of a playing render is the sound interpolated at the voice's position, scaled by the gains and the first envelope value, and mixed into output frame `startSample` |
| SamplerVoices.StopNote | modules/juce_audio_formats/sampler/juce_Sampler.cpp:112-160 | a tail-off stop only moves the envelope to release and changes nothing else; a hard stop inside a capture is ignored; any other hard stop arms the flush, drops the note and resets the envelope; the voice invariant is preserved |
| SamplerVoices.HardStop | modules/juce_audio_formats/sampler/juce_Sampler.cpp:119-160 | ignored while the guard is raised; otherwise the guard ends lowered, the flush is armed, the note is released, fade frames from the ramp end onwards are zero, the position never moves back and the voice invariant holds |
| SamplerVoices.Capture | modules/juce_audio_formats/sampler/juce_Sampler.cpp:130-133 | the capture renders a whole two-channel block of `bufferSize` frames with the guard raised, keeping pitch and gains |
| SamplerVoices.EndSample | modules/juce_audio_formats/sampler/juce_Sampler.cpp:139-143 | the ramp covers the whole block at pitch 1 or above, and otherwise the block length scaled by the pitch and truncated; it never exceeds the block |
| SamplerVoices.Interp | modules/juce_audio_formats/sampler/juce_Sampler.cpp:199-204 | the linear interpolation at a position lies between the two frames it reads, and equals the frame itself at a whole-numbered position |
| StopProperties.FrameAtChannels | modules/juce_audio_formats/sampler/juce_Sampler.cpp:188-216 | a frame's left side is channel 0 interpolated and scaled by the left gain and the envelope value; its right side reads channel 1 of a stereo sound and channel 0 of a mono one, so equal gains on a mono sound give equal sides; a zero envelope value gives a silent frame |
| SamplerVoices.MixFrame | modules/juce_audio_formats/sampler/juce_Sampler.cpp:218-226 | one frame is added to channels 0 and 1 of a stereo output, or its mean to a mono one, and nothing else in the buffer changes |
| SamplerVoices.Render | modules/juce_audio_formats/sampler/juce_Sampler.cpp:167-241 | a pending fade is flushed once with no envelope value consumed; with no note the call changes nothing; the output keeps its shape, the position never moves back, only a prefix of the stream is consumed and the voice invariant is preserved |
| SamplerVoices.PlayLoop | modules/juce_audio_formats/sampler/juce_Sampler.cpp:195-235 | the playing loop keeps the output's shape, never moves the position back, consumes a prefix of the envelope stream and preserves the voice invariant, across the hard stop it may trigger |
| VoiceProperties.Emitted | modules/juce_audio_formats/sampler/juce_Sampler.cpp:197-233 | a run of n frames emits between 1 and n frames; every emitted frame's position is within the length; if fewer than n are emitted, the position after the last one has passed the length by at most one step |
| VoiceProperties.EmittedClosedForm | modules/juce_audio_formats/sampler/juce_Sampler.cpp:228-233 | the number of frames emitted is `min(n, floor((length - pos) / pitch) + 1)` |
| VoiceProperties.PlayLoopPlaysFrames | modules/juce_audio_formats/sampler/juce_Sampler.cpp:197-235 | the loop emits exactly the frames `Emitted` counts; frame i interpolates the sound at `pos + i * pitch`, is scaled by the i-th envelope value and is mixed into output frame `k + i`; nothing else is written; the voice ends after all frames, or as the hard stop of the first position past the length |
| VoiceProperties.PlaysOneFrameThenStops | modules/juce_audio_formats/sampler/juce_Sampler.cpp:228-233 | when the first step passes the length, the run emits that one frame and ends in a hard stop |
| StopProperties.RenderPlaysSound | modules/juce_audio_formats/sampler/juce_Sampler.cpp:184-235 | a render that plays mixes the reference run at `startSample`, taking the first envelope value as its starting gain; if the run passes the length, the voice has dropped the note and armed the flush, otherwise it still holds the sound at the end position with n values consumed |
| StopProperties.HardStopRampsCapture | modules/juce_audio_formats/sampler/juce_Sampler.cpp:139-152 | each frame i of the fade buffer is the captured frame times a gain falling linearly from the starting gain for i below the ramp end, and zero from there on, on both channels |
| StopProperties.CaptureIsReferenceRun | modules/juce_audio_formats/sampler/juce_Sampler.cpp:130-132 | an ordinary hard stop's capture is the reference playing run of a whole block from the voice's position into the cleared fade buffer, with the guard raised and the first envelope value as starting gain |
| StopProperties.CapturedFrames | modules/juce_audio_formats/sampler/juce_Sampler.cpp:130-132 | the captured block holds, on channels 0 and 1, frame i the voice plays at `pos + i * pitch` with the i-th envelope value for every i below `Emitted`, and silence after that; the captured starting gain is the first envelope value |
| StopProperties.HardStopFadesPlayedFrame | modules/juce_audio_formats/sampler/juce_Sampler.cpp:130-152 | for i below both the ramp end and `Emitted`, sample i of the fade block on channel c is the sample the voice would have played i steps on (`FrameAt` at `pos + i * pitch` with the i-th envelope value) times the ramp gain that falls from the first envelope value towards 0 |
| AudioBuffers.FadeOut | modules/juce_audio_formats/sampler/juce_Sampler.cpp:145-152 | both channels are multiplied by a gain ramp from g towards 0 over the first `end` frames, and every later frame is zero |
| AudioBuffers.FadeOutFirstFrame | modules/juce_audio_formats/sampler/juce_Sampler.cpp:145-148 | the ramp's first frame is scaled by exactly the starting gain; an empty ramp zeroes it |
| AudioBuffers.FadeOutOfSilence | modules/juce_audio_formats/sampler/juce_Sampler.cpp:145-152 | fading out a silent block leaves it silent |
| AudioBuffers.FadeOutSilentTail | modules/juce_audio_formats/sampler/juce_Sampler.cpp:145-152 | fading out a block that is silent after its first frame keeps it silent there |
| AudioBuffers.CopyPrefix | modules/juce_audio_formats/sampler/juce_Sampler.cpp:174-181 | frames `[0, n)` of the channels the source has are overwritten by the source's frames, and everything else is kept |
| StopProperties.ExhaustedCapturePlaysOneFrame | modules/juce_audio_formats/sampler/juce_Sampler.cpp:124-128 | inside a capture, a voice already past the length plays one frame; the stop it triggers is ignored and the loop ends |
| StopProperties.CaptureAfterExhaustion | modules/juce_audio_formats/sampler/juce_Sampler.cpp:228-233 | the capture started by exhaustion renders exactly one frame into frame 0 of the block, consumes one envelope value (the new starting gain) and advances one step; the rest of the block is silent |
| StopProperties.ExhaustedStopFadesOneFrame | modules/juce_audio_formats/sampler/juce_Sampler.cpp:119-160 | the hard stop at exhaustion leaves a fade block silent after its first frame (the first frame too when the ramp is empty), consuming one envelope value |
| StopProperties.CaptureWhileFadingIsSilent | modules/juce_audio_formats/sampler/juce_Sampler.cpp:169-182 | a capture while a fade is pending flushes the cleared buffer onto itself: silence, nothing consumed, the flag cleared |
| StopProperties.HardStopWhileFadingIsSilent | modules/juce_audio_formats/sampler/juce_Sampler.cpp:130-132 | a second hard stop before the flush replaces the pending fade block with silence and consumes no envelope value |
| StopProperties.FadeFlushIsOneShot | modules/juce_audio_formats/sampler/juce_Sampler.cpp:169-182 | the first render after a hard stop overwrites frames `[0, numSamples)` of output channels 0 and 1 with the fade block regardless of `startSample`, consumes nothing and clears the flag; the render after it leaves the output alone |
| StopProperties.ReadsStayInGuard | modules/juce_audio_formats/sampler/juce_Sampler.cpp:199-205 | with a pitch ratio below 3, every read position up to one step past the length reads both interpolation frames inside the `length + 4` frames |
| StopProperties.StopReadInsideGuard | modules/juce_audio_formats/sampler/juce_Sampler.cpp:199-205 | the read at the position that passes the length, one step after the last emitted position, stays inside the `length + 4` frames exactly when that last position is below `length + 3 - pitchRatio` |
| StopProperties.GuardOverrunFromPitchThree | modules/juce_audio_formats/sampler/juce_Sampler.cpp:228-232 | at a pitch ratio of 3 or more, a voice whose position lands exactly on the length passes it on the next step, and the capture's read there needs frame `length + 4` or later, outside the buffer |
| StopProperties.GuardOverrunReachedFromStart | modules/juce_audio_formats/sampler/juce_Sampler.cpp:197-233 | such a position is reached from the start of a note: at pitch 3 from position 0 in a sound whose length is a multiple of 3, a long render emits `length / 3 + 1` frames, the last at exactly `length`, and stops at `length + 3`, whose read needs frame `length + 4`, one past the buffer |
| StopProperties.UnitPitchPlaysLengthPlusOne | modules/juce_audio_formats/sampler/juce_Sampler.cpp:228-233 | at pitch 1 from position 0, a render of n frames emits `min(n, length + 1)` frames |
| StopProperties.InterpolationExactOnFrames | modules/juce_audio_formats/sampler/juce_Sampler.cpp:199-204 | at a whole-numbered position the interpolation returns exactly that frame's sample |

## Left out

- The semitone pitch ratio (`std::pow`) and the host sample rate (`getSampleRate`) are not modelled. Transcendental floating-point arithmetic and a base-class value are replaced by a positive `pitchRatio` parameter of `StartNote`.
- Float32 rounding of samples, gains, interpolation weights and the `(float)` cast of `alpha` is not modelled; all values are exact reals.
- The envelope generator's internals (`setSampleRate`, `setParameters`, `noteOn`, `noteOff`, `reset`, `getNextSample`) live in a library outside this file. They are an input stream of values plus a recorded phase.
- The reader's I/O is not modelled: `AudioFormatReader::read` becomes a function giving the padded sample contents.
- The sound's name, the destructors, the `DBG` tracing and the no-op pitch-wheel and controller hooks carry no behaviour.
- Synthesiser voice allocation and `clearCurrentNote` are host code. Assigning the sound is folded into `StartNote`, and clearing it into the hard stop.
- `dynamic_cast` is a sound-kind tag (`SynthSound`).
- SamplerSounds.NewSamplerSound: both `(int)` casts on line 43-44 are modelled as unbounded truncation (`Numerics.Trunc`). The model does not truncate the 64-bit source length to 32 bits, and it does not model that the cast of `maxSampleLengthSeconds * sourceSampleRate` is undefined in C++ when the product is 2^31 or more.
- SamplerSounds.NewSamplerSound: the maximum duration must be non-negative. With a negative one the source truncates the product toward zero. A product in (-1, 0) gives length 0 and the ordinary four-frame buffer. A product of -1 or below gives a negative length: a buffer of three to one frames for a truncated product of -1 to -3, of zero frames for -4, and of negative size below -4. A voice reads past such a buffer on its first frame and on its capture.
- SamplerVoices.Render: requires a pitch ratio below 3 and a sound that holds audio when it plays. At pitch 3 or more the source reads outside the buffer exactly when the position that passes the length is `length + 3` or more, that is, when the last emitted position is at least `length + 3 - pitchRatio` (`StopProperties.StopReadInsideGuard`). A position landing exactly on the length is one such case (`StopProperties.GuardOverrunFromPitchThree`, `StopProperties.GuardOverrunReachedFromStart`). Below pitch 3 it never happens. The model does not separate the runs at pitch 3 or more that stay inside. For a sound without data the source dereferences a null buffer.
- SamplerVoices.Render: a flush requires `numSamples <= bufferSize`. The source copies without a cap and would read past the fade buffer.
- SamplerVoices.Render: requires enough envelope values for its frames and, outside a capture, a whole capture block besides. The stream is a modelling device and the source has no such limit.
- SamplerVoices.PlayLoop: requires the same pitch, audio and envelope-stream bounds as `Render`.
- SamplerVoices.HardStop: requires the same stream and read bounds for its capture (`CaptureReady`).
- SamplerVoices.StopNote: requires the same stream and read bounds as `HardStop`.
- `AudioBuffer::applyGainRamp`, `clear` and `copyFrom` are library code outside this file. They get assumed definitions: `AudioBuffers.RampGain`/`Ramp` (a linear gain from the start value to 0 over the ramp, reaching 0 at the ramp end; `RampedSample` is one sample times that gain), `AudioBuffers.ClearFrom` and `AudioBuffers.CopyPrefix`.
- The fade block's frame 0 carries the captured envelope value twice. The capture scales the frame by it, and the ramp scales it again from `startingGain`, which is the same value. During an attack or release this gives a step to the squared envelope value at the start of the fade. The model reproduces it in two steps. `StopProperties.HardStopFadesPlayedFrame` at i = 0 gives the fade's frame 0 as `RampedSample` of `FrameAt` at the voice's position with `env[0]` (which already scales it by `env[0]`), ramped from `env[0]`. `AudioBuffers.FadeOutFirstFrame` and `AudioBuffers.RampStartsAtGain` show that the ramp scales frame 0 by exactly its starting gain. After exhaustion the same holds for the one captured frame (`StopProperties.CaptureAfterExhaustion`). No single lemma writes it as the frame times the envelope value squared, because that raw product was too costly to verify in the hard stop's context.
