/**
 * The parameter mapping of the sample-player effects chain: a brightness
 * setting chooses and tunes a tone filter, a reverb amount sets the wet
 * level over four fixed delay taps, and the vibrato depth sets the LFO gain.
 */
module SaxAudio {

  import opened AudioGraph

  /** The effects-chain settings. */
  datatype SaxAudioConfig = SaxAudioConfig(
    vibratoRate: real,    // Hz
    vibratoDepth: real,   // cents
    brightness: real,     // 0..100
    reverbAmount: real)   // 0..100

  const DefaultSaxAudioConfig: SaxAudioConfig := SaxAudioConfig(6.0, 8.0, 50.0, 20.0)

  /** The tone filter for a brightness: a lowpass below 50, a high shelf from
      50 on. Q is 1 either way: set explicitly on the lowpass, left at the
      node's default on the shelf; the lowpass's gain keeps its default. */
  function CreateToneFilter(brightness: real): (f: Biquad)
    ensures f.kind == (if brightness < 50.0 then Lowpass else Highshelf)
    ensures f.q == 1.0
    ensures f.kind == Lowpass ==> f.gainDb == DefaultGainDb
  {
    if brightness < 50.0 then
      Biquad(Lowpass, 1000.0 + (brightness / 50.0) * 3000.0, 1.0, DefaultGainDb)
    else
      Biquad(Highshelf, 2000.0 + ((brightness - 50.0) / 50.0) * 2000.0, DefaultQ,
             ((brightness - 50.0) / 50.0) * 6.0)
  }

  /** On the warm side the cutoff sweeps [1000, 4000) Hz. */
  lemma WarmCutoffRange(brightness: real)
    requires 0.0 <= brightness < 50.0
    ensures 1000.0 <= CreateToneFilter(brightness).frequency < 4000.0
  {
  }

  /** The shelf starts flat at 2000 Hz and ends at 4000 Hz with a 6 dB boost. */
  lemma ShelfEndpoints()
    ensures CreateToneFilter(50.0) == Biquad(Highshelf, 2000.0, DefaultQ, 0.0)
    ensures CreateToneFilter(100.0) == Biquad(Highshelf, 4000.0, DefaultQ, 6.0)
  {
  }

  /** Within each branch a brighter setting gives a strictly higher cutoff
      and a shelf gain at least as high. */
  lemma ToneFilterMonotone(b1: real, b2: real)
    requires b1 < b2
    requires b2 < 50.0 || 50.0 <= b1
    ensures CreateToneFilter(b1).frequency < CreateToneFilter(b2).frequency
    ensures CreateToneFilter(b1).gainDb <= CreateToneFilter(b2).gainDb
  {
  }

  /** Dry and wet levels of the reverb. */
  datatype ReverbMix = ReverbMix(dry: real, wet: real)

  function ReverbLevels(amount: real): (m: ReverbMix)
    ensures m.dry == 1.0
  {
    var wetLevel := amount / 100.0;
    ReverbMix(1.0, wetLevel * 0.3)
  }

  /** The wet level grows with the amount from silence to 0.3 at full amount. */
  lemma ReverbWetScale(a1: real, a2: real)
    requires a1 <= a2
    ensures ReverbLevels(0.0).wet == 0.0 && ReverbLevels(100.0).wet == 0.3
    ensures ReverbLevels(a1).wet <= ReverbLevels(a2).wet
  {
  }

  /** One delay line of the reverb: its delay in seconds and its gain. */
  datatype Tap = Tap(time: real, gain: real)

  const ReverbTaps: seq<Tap> :=
    [Tap(0.023, 0.7), Tap(0.037, 0.5), Tap(0.053, 0.4), Tap(0.071, 0.3)]

  /** Later taps are strictly quieter; all are attenuating echoes. */
  lemma ReverbTapsShape()
    ensures |ReverbTaps| == 4
    ensures forall i, j | 0 <= i < j < |ReverbTaps| ::
      ReverbTaps[i].time < ReverbTaps[j].time && ReverbTaps[i].gain > ReverbTaps[j].gain
    ensures forall i | 0 <= i < |ReverbTaps| :: 0.0 < ReverbTaps[i].gain < 1.0
  {
  }

  /** The vibrato LFO: its rate and the gain applied to its output. */
  datatype VibratoLfo = VibratoLfo(rate: real, depthGain: real)

  /** The LFO swings the pitch by half the configured depth either way. */
  function CreateVibratoEffect(config: SaxAudioConfig): (lfo: VibratoLfo)
    ensures lfo.rate == config.vibratoRate
    ensures 2.0 * lfo.depthGain == config.vibratoDepth
  {
    var depthInCents := config.vibratoDepth / 2.0;
    VibratoLfo(config.vibratoRate, depthInCents)
  }
}
