/** Multi-channel sample buffers (AudioBuffer<float>) as sequences of channels of reals.
    Only the operations the sampler uses are modelled: clear, copyFrom, applyGainRamp and
    adding one sample in place. */
module AudioBuffers {

  type Buffer = seq<seq<real>>

  /** Number of frames of a buffer: the length of its first channel. */
  function Frames(b: Buffer): nat
  {
    if |b| == 0 then 0 else |b[0]|
  }

  /** Every channel holds the same number of frames. */
  predicate Rectangular(b: Buffer)
  {
    forall c | 0 <= c < |b| :: |b[c]| == Frames(b)
  }

  /** Same channel count and the same number of frames in each channel. */
  predicate SameShape(a: Buffer, b: Buffer)
  {
    |a| == |b| && forall c | 0 <= c < |a| :: |a[c]| == |b[c]|
  }

  /** A freshly cleared buffer. */
  function Zeros(channels: nat, frames: nat): (b: Buffer)
    ensures |b| == channels
    ensures forall c | 0 <= c < channels :: |b[c]| == frames
    ensures forall c, i | 0 <= c < channels && 0 <= i < frames :: b[c][i] == 0.0
    ensures Rectangular(b) && (0 < channels ==> Frames(b) == frames)
  {
    seq(channels, _ => seq(frames, _ => 0.0))
  }

  /** `out.copyFrom (c, 0, src[c], n)` for every channel c present in both buffers:
      frames [0, n) of those channels are overwritten, nothing else changes. */
  function CopyPrefix(out: Buffer, src: Buffer, n: nat): (r: Buffer)
    requires forall c | 0 <= c < |out| :: n <= |out[c]|
    requires forall c | 0 <= c < |src| :: n <= |src[c]|
    ensures SameShape(r, out)
    ensures forall c, j | 0 <= c < |out| && 0 <= j < |out[c]| ::
              r[c][j] == (if c < |src| && j < n then src[c][j] else out[c][j])
  {
    seq(|out|, c requires 0 <= c < |out| =>
      if c < |src| then src[c][..n] + out[c][n..] else out[c])
  }

  /** `*p += x` on frame k of channel c. */
  function AddSample(b: Buffer, c: nat, k: nat, x: real): (r: Buffer)
    requires c < |b| && k < |b[c]|
    ensures SameShape(r, b)
    ensures r[c][k] == b[c][k] + x
    ensures forall d, j | 0 <= d < |b| && 0 <= j < |b[d]| && (d != c || j != k) :: r[d][j] == b[d][j]
  {
    b[c := b[c][k := b[c][k] + x]]
  }

  /** Gain applied by `applyGainRamp (ch, 0, end, g, 0)` to frame i < end: it starts at g on
      frame 0 and steps down by g/end per frame, so it would reach 0 at frame end. */
  function RampGain(g: real, end: nat, i: nat): real
    requires i < end
  {
    g * (end - i) as real / end as real
  }

  /** Sample x of frame i < end after the ramp from gain g. */
  function RampedSample(x: real, g: real, end: nat, i: nat): real
    requires i < end
  {
    x * RampGain(g, end, i)
  }

  /** `applyGainRamp (ch, 0, end, g, 0)` on one channel. */
  function Ramp(ch: seq<real>, end: nat, g: real): (r: seq<real>)
    requires end <= |ch|
    ensures |r| == |ch|
    ensures forall i | 0 <= i < |ch| :: r[i] == (if i < end then RampedSample(ch[i], g, end, i) else ch[i])
  {
    seq(|ch|, i requires 0 <= i < |ch| => if i < end then RampedSample(ch[i], g, end, i) else ch[i])
  }

  /** The hard stop's treatment of a captured two-channel block: both channels ramped down
      from gain g over the first `end` frames, and everything from `end` on cleared. */
  function FadeOut(b: Buffer, end: nat, g: real): (r: Buffer)
    requires |b| == 2 && end <= |b[0]| && end <= |b[1]|
    ensures |r| == 2 && |r[0]| == |b[0]| && |r[1]| == |b[1]|
    ensures forall c, i | 0 <= c < 2 && 0 <= i < |b[c]| ::
              r[c][i] == if i < end then RampedSample(b[c][i], g, end, i) else 0.0
  {
    var ramped := [Ramp(b[0], end, g), Ramp(b[1], end, g)];
    var r := ClearFrom(ramped, end);
    assert forall c, i | 0 <= c < 2 && 0 <= i < |b[c]| ::
             r[c][i] == if i < end then RampedSample(b[c][i], g, end, i) else 0.0 by {
      forall c, i | 0 <= c < 2 && 0 <= i < |b[c]|
        ensures r[c][i] == if i < end then RampedSample(b[c][i], g, end, i) else 0.0
      {
        assert ramped[c] == Ramp(b[c], end, g);
      }
    }
    r
  }

  /** Fading out a silent block leaves it silent. */
  lemma FadeOutOfSilence(b: Buffer, end: nat, g: real)
    requires |b| == 2 && end <= |b[0]| && end <= |b[1]|
    requires forall c, i | 0 <= c < 2 && 0 <= i < |b[c]| :: b[c][i] == 0.0
    ensures forall c, i | 0 <= c < 2 && 0 <= i < |b[c]| :: FadeOut(b, end, g)[c][i] == 0.0
  {
    var r := FadeOut(b, end, g);
    forall c, i | 0 <= c < 2 && 0 <= i < |b[c]|
      ensures r[c][i] == 0.0
    {
      if i < end {
        assert r[c][i] == RampedSample(0.0, g, end, i);
      }
    }
  }

  /** Fading out keeps the first frame, scaled by the ramp's starting gain, unless the ramp
      is empty, in which case the first frame is cleared like the rest. */
  lemma FadeOutFirstFrame(b: Buffer, end: nat, g: real)
    requires |b| == 2 && end <= |b[0]| && end <= |b[1]| && 1 <= |b[0]| && 1 <= |b[1]|
    ensures 0 < end ==> FadeOut(b, end, g)[0][0] == b[0][0] * g && FadeOut(b, end, g)[1][0] == b[1][0] * g
    ensures end == 0 ==> FadeOut(b, end, g)[0][0] == 0.0 && FadeOut(b, end, g)[1][0] == 0.0
  {
    if 0 < end {
      RampStartsAtGain(g, end);
    }
  }

  /** Fading out a block that is silent after its first frame leaves it silent there. */
  lemma FadeOutSilentTail(b: Buffer, end: nat, g: real)
    requires |b| == 2 && end <= |b[0]| && end <= |b[1]|
    requires forall c, i | 0 <= c < 2 && 1 <= i < |b[c]| :: b[c][i] == 0.0
    ensures forall c, i | 0 <= c < 2 && 1 <= i < |b[c]| :: FadeOut(b, end, g)[c][i] == 0.0
  {
    var r := FadeOut(b, end, g);
    forall c, i | 0 <= c < 2 && 1 <= i < |b[c]|
      ensures r[c][i] == 0.0
    {
      if i < end {
        assert r[c][i] == RampedSample(0.0, g, end, i);
      }
    }
  }

  /** The ramp's first frame gets exactly the starting gain. */
  lemma RampStartsAtGain(g: real, end: nat)
    requires 0 < end
    ensures RampGain(g, end, 0) == g
  {
    var e := end as real;
    assert RampGain(g, end, 0) == g * e / e;
  }

  /** `clear (from, |ch| - from)`: frames from `from` onwards become silence on every channel. */
  function ClearFrom(b: Buffer, from: nat): (r: Buffer)
    requires forall c | 0 <= c < |b| :: from <= |b[c]|
    ensures SameShape(r, b)
    ensures forall c, j | 0 <= c < |b| && 0 <= j < |b[c]| :: r[c][j] == (if j < from then b[c][j] else 0.0)
  {
    seq(|b|, c requires 0 <= c < |b| => b[c][..from] + seq(|b[c]| - from, _ => 0.0))
  }

}
