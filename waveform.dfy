/**
  Waveform shaping used by the audio datasets.

  A waveform is a (channels, time) tensor.  `FixLength` is the pad/truncate
  step applied to every loaded item so that each channel holds exactly
  `ExpectedLength` samples (four seconds at 16 kHz).  `TimeMaskWaveform`
  zeroes one window of samples on every channel, in place; its random start
  index is a parameter.
*/
module Waveform {

  const SampleRate: nat := 16000
  const ExpectedLength: nat := SampleRate * 4

  /** Every channel of `w` has `numSamples` samples (`w.shape[1] == numSamples`). */
  predicate HasShape(w: seq<seq<real>>, numSamples: nat) {
    forall c :: 0 <= c < |w| ==> |w[c]| == numSamples
  }

  function Zeros(n: nat): (z: seq<real>)
    ensures |z| == n && forall t :: 0 <= t < n ==> z[t] == 0.0
  {
    seq(n, _ => 0.0)
  }

  /** Pad every channel on the right with zeros, or cut it, to `expected` samples. */
  function FixLength(w: seq<seq<real>>, numSamples: nat, expected: nat): (r: seq<seq<real>>)
    requires HasShape(w, numSamples)
    ensures |r| == |w| && HasShape(r, expected)
    // the original samples that fit are kept
    ensures forall c, t :: 0 <= c < |w| && 0 <= t < expected && t < numSamples ==> r[c][t] == w[c][t]
    // positions beyond the original length are zero
    ensures forall c, t :: 0 <= c < |w| && numSamples <= t < expected ==> r[c][t] == 0.0
    ensures numSamples == expected ==> r == w
  {
    if numSamples < expected then
      // F.pad(waveform, (0, pad_size))
      var r := seq(|w|, c requires 0 <= c < |w| => w[c] + Zeros(expected - numSamples));
      assert forall c :: 0 <= c < |w| ==>
        r[c] == w[c] + Zeros(expected - numSamples) && |w[c]| == numSamples && |r[c]| == expected;
      r
    else if numSamples > expected then
      // waveform[:, :expected_length]
      seq(|w|, c requires 0 <= c < |w| => w[c][..expected])
    else
      w
  }

  /** Fixing the length twice is fixing it once. */
  lemma FixLengthIdempotent(w: seq<seq<real>>, numSamples: nat, expected: nat)
    requires HasShape(w, numSamples)
    ensures FixLength(FixLength(w, numSamples, expected), expected, expected) == FixLength(w, numSamples, expected)
  {
  }

  /** A shorter input is its samples followed by zeros; a longer one is its prefix. */
  lemma FixLengthByCase(w: seq<seq<real>>, numSamples: nat, expected: nat, c: nat)
    requires HasShape(w, numSamples) && c < |w|
    ensures numSamples <= expected ==>
              FixLength(w, numSamples, expected)[c] == w[c] + Zeros(expected - numSamples)
    ensures numSamples >= expected ==>
              FixLength(w, numSamples, expected)[c] == w[c][..expected]
  {
  }

  /** Zero the samples `startIdx .. startIdx + maskDuration - 1` of every channel,
      unless the mask would cover the whole signal.  `startIdx` is the value drawn
      by `torch.randint(0, num_samples - mask_duration)`, so it lies in that range;
      `maskDuration` is the mask length in samples, which the millisecond
      conversion makes non-negative. */
  method TimeMaskWaveform(waveform: array2<real>, maskDuration: int, startIdx: int)
    requires maskDuration >= 0
    requires maskDuration < waveform.Length1 ==> 0 <= startIdx < waveform.Length1 - maskDuration
    modifies waveform
    // nothing changes when the mask is at least as long as the signal
    ensures maskDuration >= waveform.Length1 ==>
              forall c, t :: 0 <= c < waveform.Length0 && 0 <= t < waveform.Length1 ==>
                waveform[c, t] == old(waveform[c, t])
    // otherwise exactly the window is zeroed, on every channel
    ensures maskDuration < waveform.Length1 ==>
              forall c, t :: 0 <= c < waveform.Length0 && 0 <= t < waveform.Length1 ==>
                waveform[c, t] == (if startIdx <= t < startIdx + maskDuration then 0.0 else old(waveform[c, t]))
  {
    var numSamples := waveform.Length1;
    if maskDuration >= numSamples {
      return;
    }
    for c := 0 to waveform.Length0
      invariant forall c', t :: 0 <= c' < c && 0 <= t < numSamples ==>
                  waveform[c', t] == (if startIdx <= t < startIdx + maskDuration then 0.0 else old(waveform[c', t]))
      invariant forall c', t :: c <= c' < waveform.Length0 && 0 <= t < numSamples ==>
                  waveform[c', t] == old(waveform[c', t])
    {
      for t := startIdx to startIdx + maskDuration
        invariant forall c', t' :: 0 <= c' < c && 0 <= t' < numSamples ==>
                    waveform[c', t'] == (if startIdx <= t' < startIdx + maskDuration then 0.0 else old(waveform[c', t']))
        invariant forall c', t' :: c < c' < waveform.Length0 && 0 <= t' < numSamples ==>
                    waveform[c', t'] == old(waveform[c', t'])
        invariant forall t' :: 0 <= t' < numSamples ==>
                    waveform[c, t'] == (if startIdx <= t' < t then 0.0 else old(waveform[c, t']))
      {
        waveform[c, t] := 0.0;
      }
    }
  }
}
