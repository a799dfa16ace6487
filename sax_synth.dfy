/**
 * The additive saxophone synthesizer: a configuration record changed by
 * merging, and the per-note derivation of partials, vibrato, breath noise,
 * attack transients, the ADSR envelope and the formant chain. What a note
 * hands the audio substrate is recorded as a Voice value.
 */
module SaxSynth {

  import opened Wrappers
  import opened AudioGraph

  /** The names of the synthesizer's tunable parameters. */
  datatype ConfigField =
    // harmonic structure
    | MinHarmonics | MaxHarmonics | HarmonicRolloff | HarmonicRolloffVelocity
    | HarmonicMixLevel
    // vibrato
    | VibratoRate | VibratoDepth | VibratoDelay | VibratoRampTime
    // attack transients
    | AttackPitchBend | AttackPitchBendTime | KeyClickDuration | KeyClickFilterFreq
    | KeyClickGain | BreathAttackDuration | BreathAttackFilterFreq | BreathAttackFilterQ
    | BreathAttackGain
    // ADSR envelope
    | AttackTimeMin | AttackTimeMax | DecayTime | SustainLevel | ReleaseTime | PeakGainMin
    | PeakGainMax
    // breath noise
    | BreathNoiseFilterFreq | BreathNoiseFilterQ | BreathNoiseLevelAttack
    | BreathNoiseLevelSustain | BreathNoiseFadeTime
    // formants
    | Formant1Freq | Formant1Q | Formant1Gain | Formant2Freq | Formant2Q | Formant2Gain
    | Formant3Freq | Formant3Q | Formant3Gain

  const DefaultSaxConfig: SaxSynthConfig := map[
    // harmonic structure
    MinHarmonics := 5.0,
    MaxHarmonics := 9.0,
    HarmonicRolloff := 0.85,
    HarmonicRolloffVelocity := 0.1,
    HarmonicMixLevel := 0.3,
    // vibrato
    VibratoRate := 5.5,
    VibratoDepth := 10.0,
    VibratoDelay := 0.15,
    VibratoRampTime := 0.2,
    // attack transients
    AttackPitchBend := 20.0,
    AttackPitchBendTime := 0.03,
    KeyClickDuration := 0.015,
    KeyClickFilterFreq := 2000.0,
    KeyClickGain := 0.15,
    BreathAttackDuration := 0.05,
    BreathAttackFilterFreq := 2000.0,
    BreathAttackFilterQ := 1.5,
    BreathAttackGain := 0.2,
    // ADSR envelope
    AttackTimeMin := 0.015,
    AttackTimeMax := 0.03,
    DecayTime := 0.08,
    SustainLevel := 0.8,
    ReleaseTime := 0.1,
    PeakGainMin := 0.2,
    PeakGainMax := 0.5,
    // breath noise
    BreathNoiseFilterFreq := 2500.0,
    BreathNoiseFilterQ := 2.0,
    BreathNoiseLevelAttack := 0.15,
    BreathNoiseLevelSustain := 0.08,
    BreathNoiseFadeTime := 0.05,
    // formants
    Formant1Freq := 800.0,
    Formant1Q := 4.0,
    Formant1Gain := 7.0,
    Formant2Freq := 1500.0,
    Formant2Q := 3.0,
    Formant2Gain := 6.0,
    Formant3Freq := 2500.0,
    Formant3Q := 2.5,
    Formant3Gain := 6.0
  ]

  /** A configuration: a value for every field, as the record type demands. */
  type SaxSynthConfig = map<ConfigField, real>

  ghost predicate Complete(c: SaxSynthConfig) {
    forall f: ConfigField :: f in c
  }



  lemma DefaultComplete()
    ensures Complete(DefaultSaxConfig)
  {
    forall f: ConfigField
      ensures f in DefaultSaxConfig
    {
      match f
        case MinHarmonics => {}
        case MaxHarmonics => {}
        case HarmonicRolloff => {}
        case HarmonicRolloffVelocity => {}
        case HarmonicMixLevel => {}
        case VibratoRate => {}
        case VibratoDepth => {}
        case VibratoDelay => {}
        case VibratoRampTime => {}
        case AttackPitchBend => {}
        case AttackPitchBendTime => {}
        case KeyClickDuration => {}
        case KeyClickFilterFreq => {}
        case KeyClickGain => {}
        case BreathAttackDuration => {}
        case BreathAttackFilterFreq => {}
        case BreathAttackFilterQ => {}
        case BreathAttackGain => {}
        case AttackTimeMin => {}
        case AttackTimeMax => {}
        case DecayTime => {}
        case SustainLevel => {}
        case ReleaseTime => {}
        case PeakGainMin => {}
        case PeakGainMax => {}
        case BreathNoiseFilterFreq => {}
        case BreathNoiseFilterQ => {}
        case BreathNoiseLevelAttack => {}
        case BreathNoiseLevelSustain => {}
        case BreathNoiseFadeTime => {}
        case Formant1Freq => {}
        case Formant1Q => {}
        case Formant1Gain => {}
        case Formant2Freq => {}
        case Formant2Q => {}
        case Formant2Gain => {}
        case Formant3Freq => {}
        case Formant3Q => {}
        case Formant3Gain => {}
    }
  }

  /** A `Partial<SaxSynthConfig>`: any subset of the fields. */
  type PartialSaxSynthConfig = map<ConfigField, real>

  /** Object spread `{ ...base, ...overrides }`: a field the overrides carry
      replaces the one in the base. */
  function Merge(base: SaxSynthConfig, overrides: PartialSaxSynthConfig): SaxSynthConfig {
    base + overrides
  }

  /** A merge overwrites exactly the fields present in the overrides and
      keeps the configuration complete. */
  lemma MergeOverwritesPresentFields(base: SaxSynthConfig, overrides: PartialSaxSynthConfig)
    requires Complete(base)
    ensures Complete(Merge(base, overrides))
    ensures forall f: ConfigField ::
      Merge(base, overrides)[f] == if f in overrides then overrides[f] else base[f]
  {
  }

  /** Merging nothing changes nothing; merging the same overrides twice is
      merging them once. */
  lemma MergeIdentityAndIdempotence(base: SaxSynthConfig, overrides: PartialSaxSynthConfig)
    ensures Merge(base, map[]) == base
    ensures Merge(Merge(base, overrides), overrides) == Merge(base, overrides)
  {
  }

  /** A sequence of merges, as successive updates apply them. */
  function MergeAll(base: SaxSynthConfig, updates: seq<PartialSaxSynthConfig>): SaxSynthConfig
    decreases |updates|
  {
    if updates == [] then base else MergeAll(Merge(base, updates[0]), updates[1..])
  }

  /** Whether every field the overrides carry already has that value. */
  predicate AgreesWith(overrides: PartialSaxSynthConfig, c: SaxSynthConfig) {
    forall f :: f in overrides ==> f in c && overrides[f] == c[f]
  }

  /** Updates that only restate values of a configuration leave it as it
      is; after a reset, restating defaults yields exactly the defaults. */
  lemma {:induction false} RestatingUpdatesChangeNothing(c: SaxSynthConfig, updates: seq<PartialSaxSynthConfig>)
    requires forall i | 0 <= i < |updates| :: AgreesWith(updates[i], c)
    ensures MergeAll(c, updates) == c
    decreases |updates|
  {
    if updates != [] {
      assert Merge(c, updates[0]) == c;
      RestatingUpdatesChangeNothing(c, updates[1..]);
    }
  }

  // ---------------------------------------------------------------------
  // Pitch

  /** The twelve factors 2^(k/12), k = 0..11, within one octave. */
  type SemitoneRatios = r: seq<real> | |r| == 12 && r[0] == 1.0
    witness [1.0, 1.0, 1.0, 1.0, 1.0, 1.0, 1.0, 1.0, 1.0, 1.0, 1.0, 1.0]

  /** 2^e for an integer exponent. */
  function Pow2(e: int): real
    decreases if e < 0 then -e else e
  {
    if e == 0 then 1.0 else if e > 0 then 2.0 * Pow2(e - 1) else Pow2(e + 1) / 2.0
  }

  /** Equal temperament at A4 = 440 Hz: 440 * 2^((midi-69)/12), split into a
      whole number of octaves and a step within the octave. */
  function MidiToFreq(ratios: SemitoneRatios, midi: int): real {
    440.0 * Pow2((midi - 69) / 12) * ratios[(midi - 69) % 12]
  }

  lemma Pow2Step(e: int)
    ensures Pow2(e + 1) == 2.0 * Pow2(e)
  {
  }

  /** A4 is 440 Hz, and twelve semitones up doubles the frequency. */
  lemma MidiToFreqOctave(ratios: SemitoneRatios, midi: int)
    ensures MidiToFreq(ratios, 69) == 440.0
    ensures MidiToFreq(ratios, midi + 12) == 2.0 * MidiToFreq(ratios, midi)
  {
    var d := midi - 69;
    assert (d + 12) / 12 == d / 12 + 1 && (d + 12) % 12 == d % 12;
    Pow2Step(d / 12);
  }

  /** A5 is 880 Hz and A3 is 220 Hz. */
  lemma ReferencePitches(ratios: SemitoneRatios)
    ensures MidiToFreq(ratios, 81) == 880.0
    ensures MidiToFreq(ratios, 57) == 220.0
  {
    MidiToFreqOctave(ratios, 69);
    MidiToFreqOctave(ratios, 57);
  }

  // ---------------------------------------------------------------------
  // Per-note values

  /** A MIDI velocity scaled to [0, 1]. */
  function NormalizedVelocity(velocity: real): real {
    velocity / 127.0
  }

  /** How many odd harmonics a (normalized) velocity asks for. */
  function NumHarmonics(c: SaxSynthConfig, velocity: real): int
    requires Complete(c)
  {
    (c[MinHarmonics] + velocity * (c[MaxHarmonics] - c[MinHarmonics])).Floor
  }

  /** The odd harmonics a partial can sit on. */
  const HarmonicNumbers: seq<int> := [1, 3, 5, 7, 9, 11, 13, 15, 17]

  /** How many partials are built: the harmonic count, capped by the
      harmonic table and at least none. */
  function PartialCount(c: SaxSynthConfig, velocity: real): nat
    requires Complete(c)
  {
    var n := NumHarmonics(c, velocity);
    if n <= 0 then 0 else if n < |HarmonicNumbers| then n else |HarmonicNumbers|
  }

  function Pow(x: real, n: nat): real {
    if n == 0 then 1.0 else x * Pow(x, n - 1)
  }

  /** The amplitude of partial i: falling with the harmonic number and by a
      velocity-dependent rolloff per partial, raised overall by velocity. */
  function PartialGain(c: SaxSynthConfig, velocity: real, i: nat): real
    requires Complete(c) && i < |HarmonicNumbers|
  {
    (1.0 / HarmonicNumbers[i] as real)
      * Pow(c[HarmonicRolloff] + velocity * c[HarmonicRolloffVelocity], i)
      * (1.0 + velocity * 0.3)
  }

  /** A vibrato LFO: a sine at `rate` through a gain into a partial's
      detune. The gain holds `initialDepth` until its `depth` automation
      takes over; the LFO runs from `start` to `stop`. */
  datatype Lfo = Lfo(rate: real, initialDepth: real, depth: seq<Automation>, start: real, stop: real)

  /** The vibrato of a note: no depth at first, then a linear ramp to the
      full depth after the onset delay, if that delay ends before the note. */
  function VibratoFor(c: SaxSynthConfig, startTime: real, duration: real): Lfo
    requires Complete(c)
  {
    var vibratoStart := startTime + c[VibratoDelay];
    Lfo(c[VibratoRate], 0.0,
        if vibratoStart < startTime + duration then
          [SetValueAtTime(0.0, vibratoStart),
           LinearRampToValueAtTime(c[VibratoDepth], vibratoStart + c[VibratoRampTime])]
        else [],
        startTime, startTime + duration + 0.1)
  }

  /** One sine partial of the harmonic bank. */
  datatype Partial = Partial(
    harmonic: int,
    frequency: real,
    gain: real,
    detune: seq<Automation>,
    vibrato: Lfo,
    start: real,
    stop: real)

  function PartialFor(c: SaxSynthConfig, fundamental: real, startTime: real, duration: real,
                      velocity: real, i: nat): Partial
    requires Complete(c) && i < |HarmonicNumbers|
  {
    Partial(
      HarmonicNumbers[i],
      fundamental * HarmonicNumbers[i] as real,
      PartialGain(c, velocity, i),
      if i == 0 then
        [SetValueAtTime(c[AttackPitchBend], startTime),
         ExponentialRampToValueAtTime(0.1, startTime + c[AttackPitchBendTime])]
      else [],
      VibratoFor(c, startTime, duration),
      startTime,
      startTime + duration + 0.1)
  }

  /** The additive part of a note: a shared mix gain over its partials. */
  datatype HarmonicBank = HarmonicBank(mixLevel: real, partials: seq<Partial>)

  function HarmonicBankFor(c: SaxSynthConfig, fundamental: real, startTime: real,
                           duration: real, velocity: real): HarmonicBank
    requires Complete(c)
  {
    HarmonicBank(
      c[HarmonicMixLevel],
      seq(PartialCount(c, velocity), i requires 0 <= i < PartialCount(c, velocity) =>
        PartialFor(c, fundamental, startTime, duration, velocity, i)))
  }

  /** The smallest gain exponential ramps start from and fall back to. */
  const EnvelopeFloor: real := 0.001

  /** Band-passed white noise under a gain envelope. */
  datatype BreathNoise = BreathNoise(bufferSeconds: real, filter: Biquad, gain: seq<Automation>, start: real)

  function BreathNoiseFor(c: SaxSynthConfig, startTime: real, duration: real, velocity: real): BreathNoise
    requires Complete(c)
  {
    var attackLevel := c[BreathNoiseLevelAttack] * velocity;
    var sustainLevel := c[BreathNoiseLevelSustain] * velocity;
    BreathNoise(
      duration + 0.1,
      Biquad(Bandpass, c[BreathNoiseFilterFreq], c[BreathNoiseFilterQ], DefaultGainDb),
      [SetValueAtTime(attackLevel, startTime),
       ExponentialRampToValueAtTime(sustainLevel, startTime + c[BreathNoiseFadeTime]),
       SetValueAtTime(sustainLevel, startTime + duration),
       ExponentialRampToValueAtTime(EnvelopeFloor, startTime + duration + 0.1)],
      startTime)
  }

  /** A one-shot filtered noise burst at a fixed gain. */
  datatype Transient = Transient(bufferSeconds: real, filter: Biquad, gain: real, start: real)

  datatype AttackTransients = AttackTransients(keyClick: Transient, breathAttack: Transient)

  function AttackTransientsFor(c: SaxSynthConfig, startTime: real, velocity: real): AttackTransients
    requires Complete(c)
  {
    AttackTransients(
      Transient(c[KeyClickDuration], Biquad(Highpass, c[KeyClickFilterFreq], 1.0, DefaultGainDb),
                c[KeyClickGain] * velocity, startTime),
      Transient(c[BreathAttackDuration],
                Biquad(Bandpass, c[BreathAttackFilterFreq], c[BreathAttackFilterQ], DefaultGainDb),
                c[BreathAttackGain] * velocity, startTime))
  }

  /** The envelope's peak gain: from the minimum at velocity 0 to the
      maximum at full velocity. */
  function PeakGain(c: SaxSynthConfig, velocity: real): real
    requires Complete(c)
  {
    c[PeakGainMin] + velocity * (c[PeakGainMax] - c[PeakGainMin])
  }

  function SustainGain(c: SaxSynthConfig, velocity: real): real
    requires Complete(c)
  {
    PeakGain(c, velocity) * c[SustainLevel]
  }

  /** The attack time: the maximum at velocity 0 down to the minimum at
      full velocity. */
  function AttackTime(c: SaxSynthConfig, velocity: real): real
    requires Complete(c)
  {
    c[AttackTimeMax] - velocity * (c[AttackTimeMax] - c[AttackTimeMin])
  }

  /** The five ADSR points on a note's gain. */
  function EnvelopeFor(c: SaxSynthConfig, startTime: real, duration: real, velocity: real): seq<Automation>
    requires Complete(c)
  {
    var attackTime := AttackTime(c, velocity);
    [SetValueAtTime(EnvelopeFloor, startTime),
     ExponentialRampToValueAtTime(PeakGain(c, velocity), startTime + attackTime),
     ExponentialRampToValueAtTime(SustainGain(c, velocity), startTime + attackTime + c[DecayTime]),
     SetValueAtTime(SustainGain(c, velocity), startTime + duration),
     ExponentialRampToValueAtTime(EnvelopeFloor, startTime + duration + c[ReleaseTime])]
  }

  /** A formant's centre frequency, Q and gain in dB. */
  datatype Formant = Formant(freq: real, q: real, gain: real)

  function FormantsOf(c: SaxSynthConfig): seq<Formant>
    requires Complete(c)
  {
    [Formant(c[Formant1Freq], c[Formant1Q], c[Formant1Gain]),
     Formant(c[Formant2Freq], c[Formant2Q], c[Formant2Gain]),
     Formant(c[Formant3Freq], c[Formant3Q], c[Formant3Gain])]
  }

  /** The nodes of a voice's formant chain: its note gain, and the filters
      numbered by the formant each one carries. */
  datatype Node = NoteGain | FormantFilter(index: nat)

  /** `from.connect(to)`. */
  datatype Connection = Connection(from: Node, to: Node)

  datatype FormantChain = FormantChain(filters: seq<Biquad>, connections: seq<Connection>, input: Node)

  function PeakingFilter(f: Formant): Biquad {
    Biquad(Peaking, f.freq, f.q, f.gain)
  }

  /** The connection out of filter k of an n-filter chain: into the next
      filter, the last one into the note gain. */
  function LinkOut(n: nat, k: nat): Connection {
    Connection(FormantFilter(k), if k + 1 == n then NoteGain else FormantFilter(k + 1))
  }

  /** The chain for a list of formants: one peaking filter each, connected
      from the last back to the first, with the first as the chain's input
      (the note gain when there are none). */
  function ChainOf(formants: seq<Formant>): FormantChain {
    var n := |formants|;
    FormantChain(
      seq(n, k requires 0 <= k < n => PeakingFilter(formants[k])),
      seq(n, k requires 0 <= k < n => LinkOut(n, n - 1 - k)),
      if n == 0 then NoteGain else FormantFilter(0))
  }

  /** Everything one note hands the audio substrate. */
  datatype Voice = Voice(
    midi: int,
    frequency: real,
    formants: FormantChain,
    harmonics: HarmonicBank,
    breathNoise: BreathNoise,
    transients: AttackTransients,
    envelope: seq<Automation>)

  /** The voice exactly as the source schedules it. */
  function VoiceAsWritten(c: SaxSynthConfig, ratios: SemitoneRatios, midi: int, startTime: real,
                          duration: real, velocity: real): Voice
    requires Complete(c)
  {
    var v := NormalizedVelocity(velocity);
    var frequency := MidiToFreq(ratios, midi);
    Voice(midi, frequency, ChainOf(FormantsOf(c)), HarmonicBankFor(c, frequency, startTime, duration, v),
          BreathNoiseFor(c, startTime, duration, v), AttackTransientsFor(c, startTime, v),
          EnvelopeFor(c, startTime, duration, v))
  }

  /** What playing a note does as written: the substrate refuses the breath
      noise's or the envelope's schedule when one of their exponential
      ramps targets 0, and the note then stops with a RangeError; otherwise
      the voice is played, and it is the corrected voice. */
  function PlayNoteOutcome(c: SaxSynthConfig, ratios: SemitoneRatios, midi: int, startTime: real,
                           duration: real, velocity: real): (r: Result<Voice, AudioError>)
    requires Complete(c)
    ensures r.Success? <==>
      var raw := VoiceAsWritten(c, ratios, midi, startTime, duration, velocity);
      Schedulable(raw.breathNoise.gain) && Schedulable(raw.envelope)
    ensures r.Success? ==> r.value == VoiceFor(c, ratios, midi, startTime, duration, velocity)
  {
    var raw := VoiceAsWritten(c, ratios, midi, startTime, duration, velocity);
    if !Schedulable(raw.breathNoise.gain) || !Schedulable(raw.envelope) then Failure(RangeError)
    else Success(raw)
  }

  /** The voice a note is played with: the source's schedule, with the
      breath noise's and the envelope's exponential ramps kept off 0 by
      aiming them at the envelope floor instead. */
  function VoiceFor(c: SaxSynthConfig, ratios: SemitoneRatios, midi: int, startTime: real,
                    duration: real, velocity: real): (voice: Voice)
    requires Complete(c)
    ensures Schedulable(voice.breathNoise.gain) && Schedulable(voice.envelope)
    ensures var raw := VoiceAsWritten(c, ratios, midi, startTime, duration, velocity);
      && voice.(breathNoise := raw.breathNoise, envelope := raw.envelope) == raw
      && voice.breathNoise.(gain := raw.breathNoise.gain) == raw.breathNoise
  {
    var raw := VoiceAsWritten(c, ratios, midi, startTime, duration, velocity);
    raw.(breathNoise := raw.breathNoise.(gain := AvoidZeroTargets(raw.breathNoise.gain, EnvelopeFloor)),
         envelope := AvoidZeroTargets(raw.envelope, EnvelopeFloor))
  }

  // ---------------------------------------------------------------------
  // Properties of the per-note values

  /** A louder note never has fewer harmonics, when the maximum harmonic
      count is at least the minimum. */
  lemma NumHarmonicsMonotone(c: SaxSynthConfig, velocity1: real, velocity2: real)
    requires Complete(c) && c[MinHarmonics] <= c[MaxHarmonics] && velocity1 <= velocity2
    ensures NumHarmonics(c, NormalizedVelocity(velocity1)) <= NumHarmonics(c, NormalizedVelocity(velocity2))
  {
    var v1, v2 := NormalizedVelocity(velocity1), NormalizedVelocity(velocity2);
    var spread := c[MaxHarmonics] - c[MinHarmonics];
    assert v1 * spread <= v2 * spread by {
      NonNegativeProduct(v2 - v1, spread);
    }
  }

  lemma NonNegativeProduct(x: real, y: real)
    requires 0.0 <= x && 0.0 <= y
    ensures 0.0 <= x * y
  {
  }

  /** Velocity 0 and velocity 127 give the configured extremes of the
      harmonic count, the peak gain and the attack time. */
  lemma VelocityExtremes(c: SaxSynthConfig)
    requires Complete(c)
    ensures NumHarmonics(c, NormalizedVelocity(0.0)) == c[MinHarmonics].Floor
    ensures NumHarmonics(c, NormalizedVelocity(127.0)) == c[MaxHarmonics].Floor
    ensures PeakGain(c, NormalizedVelocity(0.0)) == c[PeakGainMin]
    ensures PeakGain(c, NormalizedVelocity(127.0)) == c[PeakGainMax]
    ensures AttackTime(c, NormalizedVelocity(0.0)) == c[AttackTimeMax]
    ensures AttackTime(c, NormalizedVelocity(127.0)) == c[AttackTimeMin]
  {
  }

  /** For a velocity in [0, 1] the attack time and the peak gain stay within
      their configured ranges. */
  lemma EnvelopeRanges(c: SaxSynthConfig, velocity: real)
    requires Complete(c) && 0.0 <= velocity <= 1.0
    ensures c[AttackTimeMin] <= c[AttackTimeMax] ==>
      c[AttackTimeMin] <= AttackTime(c, velocity) <= c[AttackTimeMax]
    ensures c[PeakGainMin] <= c[PeakGainMax] ==>
      c[PeakGainMin] <= PeakGain(c, velocity) <= c[PeakGainMax]
  {
    if c[AttackTimeMin] <= c[AttackTimeMax] {
      NonNegativeProduct(velocity, c[AttackTimeMax] - c[AttackTimeMin]);
      NonNegativeProduct(1.0 - velocity, c[AttackTimeMax] - c[AttackTimeMin]);
    }
    if c[PeakGainMin] <= c[PeakGainMax] {
      NonNegativeProduct(velocity, c[PeakGainMax] - c[PeakGainMin]);
      NonNegativeProduct(1.0 - velocity, c[PeakGainMax] - c[PeakGainMin]);
    }
  }

  /** The harmonic table lists the odd numbers 1, 3, ..., 17. */
  lemma OddHarmonics(i: nat)
    requires i < |HarmonicNumbers|
    ensures HarmonicNumbers[i] == 2 * i + 1
  {
  }

  /** The harmonic bank: min(count, 9) partials (none for a count below 1);
      partial i on harmonic 2i+1 with gain (1/(2i+1)) * rolloff^i *
      (1 + 0.3v); every partial sharing one vibrato and sounding from the
      start to 0.1 s past the end; a pitch bend on the fundamental only. */
  lemma HarmonicBankShape(c: SaxSynthConfig, fundamental: real, startTime: real, duration: real,
                          velocity: real)
    requires Complete(c)
    ensures var bank := HarmonicBankFor(c, fundamental, startTime, duration, velocity);
      var n := NumHarmonics(c, velocity);
      && bank.mixLevel == c[HarmonicMixLevel]
      && |bank.partials| == (if n < 0 then 0 else if n < 9 then n else 9)
      && (forall i | 0 <= i < |bank.partials| ::
            PartialShaped(c, bank.partials[i], fundamental, startTime, duration, velocity, i))
      && (|bank.partials| > 0 ==>
            bank.partials[0].detune
            == [SetValueAtTime(c[AttackPitchBend], startTime),
                ExponentialRampToValueAtTime(0.1, startTime + c[AttackPitchBendTime])])
  {
    var bank := HarmonicBankFor(c, fundamental, startTime, duration, velocity);
    forall i | 0 <= i < |bank.partials|
      ensures PartialShaped(c, bank.partials[i], fundamental, startTime, duration, velocity, i)
    {
      PartialShape(c, fundamental, startTime, duration, velocity, i);
    }
  }

  lemma BankPartial(c: SaxSynthConfig, fundamental: real, startTime: real, duration: real,
                    velocity: real, i: nat)
    requires Complete(c) && i < PartialCount(c, velocity)
    ensures HarmonicBankFor(c, fundamental, startTime, duration, velocity).partials[i]
            == PartialFor(c, fundamental, startTime, duration, velocity, i)
  {
  }

  /** Partial i of a note, as the harmonic bank lays it out. */
  ghost predicate PartialShaped(c: SaxSynthConfig, p: Partial, fundamental: real, startTime: real,
                                duration: real, velocity: real, i: nat)
    requires Complete(c)
  {
    && p.frequency == fundamental * (2 * i + 1) as real
    && p.gain
       == (1.0 / (2 * i + 1) as real)
          * Pow(c[HarmonicRolloff] + velocity * c[HarmonicRolloffVelocity], i)
          * (1.0 + 0.3 * velocity)
    && p.vibrato == VibratoFor(c, startTime, duration)
    && p.start == startTime
    && p.stop == startTime + duration + 0.1
    && (p.detune == [] <==> i != 0)
  }

  lemma PartialShape(c: SaxSynthConfig, fundamental: real, startTime: real, duration: real,
                     velocity: real, i: nat)
    requires Complete(c) && i < |HarmonicNumbers|
    ensures PartialShaped(c, PartialFor(c, fundamental, startTime, duration, velocity, i),
                          fundamental, startTime, duration, velocity, i)
  {
    OddHarmonics(i);
    assert HarmonicNumbers[i] as real == (2 * i + 1) as real;
  }

  /** The note-gain envelope rises from the floor to the peak, decays to
      the sustain level, holds that level until the note ends and releases
      to the floor; the held value is the decay target. */
  lemma EnvelopeShape(c: SaxSynthConfig, startTime: real, duration: real, velocity: real)
    requires Complete(c)
    ensures var e := EnvelopeFor(c, startTime, duration, velocity);
      && |e| == 5
      && e[0] == SetValueAtTime(EnvelopeFloor, startTime)
      && e[1].ExponentialRampToValueAtTime? && e[1].value == PeakGain(c, velocity)
      && e[2].ExponentialRampToValueAtTime? && e[2].value == PeakGain(c, velocity) * c[SustainLevel]
      && e[3] == SetValueAtTime(e[2].value, startTime + duration)
      && e[4] == ExponentialRampToValueAtTime(EnvelopeFloor, startTime + duration + c[ReleaseTime])
      && e[2].time - e[1].time == c[DecayTime]
      && e[1].time == startTime + AttackTime(c, velocity)
  {
  }

  /** When attack and decay end before the note does and the release takes
      time, the envelope's points come in strictly increasing time order. */
  lemma EnvelopeTimesIncrease(c: SaxSynthConfig, startTime: real, duration: real, velocity: real)
    requires Complete(c)
    requires 0.0 < AttackTime(c, velocity) && 0.0 < c[DecayTime] && 0.0 < c[ReleaseTime]
    requires AttackTime(c, velocity) + c[DecayTime] < duration
    ensures var e := EnvelopeFor(c, startTime, duration, velocity);
      forall j | 0 <= j < |e| - 1 :: e[j].time < e[j + 1].time
  {
  }

  /** Whether every exponential ramp in a schedule targets a positive value,
      as exponential ramps require a non-zero target of the same sign. */
  predicate ExponentialTargetsPositive(schedule: seq<Automation>) {
    forall j | 0 <= j < |schedule| :: schedule[j].ExponentialRampToValueAtTime? ==> 0.0 < schedule[j].value
  }

  /** With positive peak gains and sustain level, every exponential ramp of
      the envelope has a positive target for a velocity in [0, 1]. */
  lemma EnvelopeRampTargetsPositive(c: SaxSynthConfig, startTime: real, duration: real, velocity: real)
    requires Complete(c) && 0.0 <= velocity <= 1.0
    requires 0.0 < c[PeakGainMin] <= c[PeakGainMax] && 0.0 < c[SustainLevel]
    ensures ExponentialTargetsPositive(EnvelopeFor(c, startTime, duration, velocity))
  {
    EnvelopeRanges(c, velocity);
    PositiveProduct(PeakGain(c, velocity), c[SustainLevel]);
  }

  lemma PositiveProduct(x: real, y: real)
    requires 0.0 < x && 0.0 < y
    ensures 0.0 < x * y
  {
  }

  /** Breath noise: four points, from the attack level down to the sustain
      level, held to the note's end and released to the floor 0.1 s later;
      both levels scale with velocity. */
  lemma BreathNoiseShape(c: SaxSynthConfig, startTime: real, duration: real, velocity: real)
    requires Complete(c)
    ensures var noise := BreathNoiseFor(c, startTime, duration, velocity);
      && |noise.gain| == 4
      && noise.gain[0] == SetValueAtTime(c[BreathNoiseLevelAttack] * velocity, startTime)
      && noise.gain[1].value == noise.gain[2].value == c[BreathNoiseLevelSustain] * velocity
      && noise.gain[2].time == startTime + duration
      && noise.gain[3] == ExponentialRampToValueAtTime(EnvelopeFloor, startTime + duration + 0.1)
      && noise.filter == Biquad(Bandpass, c[BreathNoiseFilterFreq], c[BreathNoiseFilterQ], DefaultGainDb)
  {
  }

  /** At velocity 0 the breath noise and both attack transients are
      silent, and the breath noise's first ramp then targets 0, which an
      exponential ramp does not allow. */
  lemma SilentAtZeroVelocity(c: SaxSynthConfig, startTime: real, duration: real)
    requires Complete(c)
    ensures var noise := BreathNoiseFor(c, startTime, duration, NormalizedVelocity(0.0));
      && noise.gain[0].value == 0.0 && noise.gain[1].value == 0.0
      && !ExponentialTargetsPositive(noise.gain)
    ensures var t := AttackTransientsFor(c, startTime, NormalizedVelocity(0.0));
      t.keyClick.gain == 0.0 && t.breathAttack.gain == 0.0
  {
    var noise := BreathNoiseFor(c, startTime, duration, NormalizedVelocity(0.0));
    assert noise.gain[1].ExponentialRampToValueAtTime? && noise.gain[1].value == 0.0;
  }

  /** As written, a note at velocity 0 is refused: its breath noise ramps
      exponentially to 0. */
  lemma ZeroVelocityThrows(c: SaxSynthConfig, ratios: SemitoneRatios, midi: int, startTime: real, duration: real)
    requires Complete(c)
    ensures PlayNoteOutcome(c, ratios, midi, startTime, duration, 0.0) == Failure(RangeError)
  {
    var raw := VoiceAsWritten(c, ratios, midi, startTime, duration, 0.0);
    assert NormalizedVelocity(0.0) == 0.0;
    assert raw.breathNoise.gain[1].ExponentialRampToValueAtTime? && raw.breathNoise.gain[1].value == 0.0;
  }

  lemma PositiveTargetsSchedulable(schedule: seq<Automation>)
    requires ExponentialTargetsPositive(schedule)
    ensures Schedulable(schedule)
  {
  }

  /** The corrected voice is always accepted; at velocity 0 its breath
      noise fades to the envelope floor instead of 0; and for a velocity in
      (0, 127] with positive levels it is the voice as written. */
  lemma VoiceForSchedulable(c: SaxSynthConfig, ratios: SemitoneRatios, midi: int, startTime: real,
                            duration: real, velocity: real)
    requires Complete(c)
    ensures var voice := VoiceFor(c, ratios, midi, startTime, duration, velocity);
      Schedulable(voice.breathNoise.gain) && Schedulable(voice.envelope)
    ensures VoiceFor(c, ratios, midi, startTime, duration, 0.0).breathNoise.gain[1]
            == ExponentialRampToValueAtTime(EnvelopeFloor, startTime + c[BreathNoiseFadeTime])
    ensures 0.0 < velocity <= 127.0 && 0.0 < c[BreathNoiseLevelSustain]
            && 0.0 < c[PeakGainMin] <= c[PeakGainMax] && 0.0 < c[SustainLevel] ==>
      VoiceFor(c, ratios, midi, startTime, duration, velocity)
      == VoiceAsWritten(c, ratios, midi, startTime, duration, velocity)
  {
    SilentBreathFloored(c, ratios, midi, startTime, duration);
    if 0.0 < velocity <= 127.0 && 0.0 < c[BreathNoiseLevelSustain]
       && 0.0 < c[PeakGainMin] <= c[PeakGainMax] && 0.0 < c[SustainLevel] {
      var v := NormalizedVelocity(velocity);
      assert 0.0 < v <= 1.0;
      AudibleSchedulesAccepted(c, startTime, duration, v);
    }
  }

  lemma SilentBreathFloored(c: SaxSynthConfig, ratios: SemitoneRatios, midi: int, startTime: real, duration: real)
    requires Complete(c)
    ensures VoiceFor(c, ratios, midi, startTime, duration, 0.0).breathNoise.gain[1]
            == ExponentialRampToValueAtTime(EnvelopeFloor, startTime + c[BreathNoiseFadeTime])
  {
    assert NormalizedVelocity(0.0) == 0.0;
    var raw := BreathNoiseFor(c, startTime, duration, 0.0).gain;
    assert raw[1] == ExponentialRampToValueAtTime(0.0, startTime + c[BreathNoiseFadeTime]);
  }

  lemma AudibleSchedulesAccepted(c: SaxSynthConfig, startTime: real, duration: real, velocity: real)
    requires Complete(c) && 0.0 < velocity <= 1.0 && 0.0 < c[BreathNoiseLevelSustain]
    requires 0.0 < c[PeakGainMin] <= c[PeakGainMax] && 0.0 < c[SustainLevel]
    ensures Schedulable(BreathNoiseFor(c, startTime, duration, velocity).gain)
    ensures Schedulable(EnvelopeFor(c, startTime, duration, velocity))
  {
    PositiveProduct(c[BreathNoiseLevelSustain], velocity);
    EnvelopeRampTargetsPositive(c, startTime, duration, velocity);
    PositiveTargetsSchedulable(EnvelopeFor(c, startTime, duration, velocity));
  }

  /** The attack transients: a high-passed key click and a band-passed
      breath burst, each at its configured gain scaled by velocity. */
  lemma AttackTransientsShape(c: SaxSynthConfig, startTime: real, velocity: real)
    requires Complete(c)
    ensures var t := AttackTransientsFor(c, startTime, velocity);
      && t.keyClick.filter.kind == Highpass && t.keyClick.filter.q == 1.0
      && t.keyClick.filter.frequency == c[KeyClickFilterFreq]
      && t.keyClick.gain == c[KeyClickGain] * velocity
      && t.breathAttack.filter.kind == Bandpass && t.breathAttack.filter.q == c[BreathAttackFilterQ]
      && t.breathAttack.filter.frequency == c[BreathAttackFilterFreq]
      && t.breathAttack.gain == c[BreathAttackGain] * velocity
      && t.keyClick.start == t.breathAttack.start == startTime
  {
  }

  /** The value, at time t, of a parameter holding `value` since `time`
      and then following set-value and linear-ramp points (a linear ramp
      runs from the previous point to its own). */
  function LinearValueAt(value: real, time: real, schedule: seq<Automation>, t: real): real
    requires forall j | 0 <= j < |schedule| :: !schedule[j].ExponentialRampToValueAtTime?
    decreases |schedule|
  {
    if schedule == [] then value
    else match schedule[0]
      case SetValueAtTime(v, at) =>
        if t < at then value else LinearValueAt(v, at, schedule[1..], t)
      case LinearRampToValueAtTime(v, at) =>
        if at <= t then LinearValueAt(v, at, schedule[1..], t)
        else if t <= time then value
        else value + (v - value) * (t - time) / (at - time)
  }

  /** The vibrato depth at time t. */
  function VibratoDepthAt(lfo: Lfo, t: real): real
    requires forall j | 0 <= j < |lfo.depth| :: !lfo.depth[j].ExponentialRampToValueAtTime?
  {
    LinearValueAt(lfo.initialDepth, lfo.start, lfo.depth, t)
  }

  /** The vibrato LFO runs from the note's start to 0.1 s past its end. Its
      depth is 0 throughout when the onset delay is not shorter than the
      note; otherwise it is 0 until the onset, rises linearly over the ramp
      time and then stays at the configured depth. */
  lemma VibratoDepthCurve(c: SaxSynthConfig, startTime: real, duration: real, t: real)
    requires Complete(c) && 0.0 < c[VibratoRampTime]
    ensures var lfo := VibratoFor(c, startTime, duration);
      && lfo.rate == c[VibratoRate]
      && lfo.start == startTime && lfo.stop == startTime + duration + 0.1
      && (lfo.depth != [] <==> c[VibratoDelay] < duration)
      && var onset := startTime + c[VibratoDelay];
         var depth := VibratoDepthAt(lfo, t);
         && (c[VibratoDelay] >= duration ==> depth == 0.0)
         && (c[VibratoDelay] < duration && t < onset ==> depth == 0.0)
         && (c[VibratoDelay] < duration && onset <= t < onset + c[VibratoRampTime] ==>
               depth == c[VibratoDepth] * (t - onset) / c[VibratoRampTime])
         && (c[VibratoDelay] < duration && onset + c[VibratoRampTime] <= t ==> depth == c[VibratoDepth])
  {
    var lfo := VibratoFor(c, startTime, duration);
    var onset := startTime + c[VibratoDelay];
    var ramp := c[VibratoRampTime];
    var rampEnd := onset + ramp;
    if c[VibratoDelay] < duration && onset <= t {
      var rest := lfo.depth[1..];
      assert rest == [LinearRampToValueAtTime(c[VibratoDepth], rampEnd)];
      assert VibratoDepthAt(lfo, t) == LinearValueAt(0.0, onset, rest, t);
      if t < rampEnd {
        assert rampEnd - onset == ramp;
        if t == onset {
          assert c[VibratoDepth] * (t - onset) == 0.0;
        }
      } else {
        assert LinearValueAt(0.0, onset, rest, t) == LinearValueAt(c[VibratoDepth], rampEnd, [], t);
      }
    }
  }

  /** The target of the first connection out of a node. */
  function Downstream(connections: seq<Connection>, from: Node): Option<Node>
    decreases |connections|
  {
    if connections == [] then None
    else if connections[0].from == from then Some(connections[0].to)
    else Downstream(connections[1..], from)
  }

  lemma {:induction false} DownstreamAt(connections: seq<Connection>, j: nat, from: Node)
    requires j < |connections| && connections[j].from == from
    requires forall i | 0 <= i < j :: connections[i].from != from
    ensures Downstream(connections, from) == Some(connections[j].to)
    decreases j
  {
    if j > 0 {
      DownstreamAt(connections[1..], j - 1, from);
    }
  }

  /** In the chain built for any list of formants, each filter feeds the
      next and the last feeds the note gain, and the first is the input. */
  lemma ChainFeedsForward(formants: seq<Formant>, k: nat)
    requires k < |formants|
    ensures var chain := ChainOf(formants);
      && chain.filters[k] == PeakingFilter(formants[k])
      && chain.input == FormantFilter(0)
      && Downstream(chain.connections, FormantFilter(k))
         == Some(if k + 1 == |formants| then NoteGain else FormantFilter(k + 1))
  {
    var chain := ChainOf(formants);
    var n := |formants|;
    forall i | 0 <= i < n - 1 - k
      ensures chain.connections[i].from != FormantFilter(k)
    {
      assert chain.connections[i] == LinkOut(n, n - 1 - i);
    }
    assert chain.connections[n - 1 - k] == LinkOut(n, k);
    DownstreamAt(chain.connections, n - 1 - k, FormantFilter(k));
  }

  /** The synthesizer's chain: the note passes the first, second and third
      formant filters, each with its own frequency, Q and gain, and then
      reaches the note gain. */
  lemma FormantChainOrder(c: SaxSynthConfig)
    requires Complete(c)
    ensures var chain := ChainOf(FormantsOf(c));
      && chain.input == FormantFilter(0)
      && chain.filters == [Biquad(Peaking, c[Formant1Freq], c[Formant1Q], c[Formant1Gain]),
                           Biquad(Peaking, c[Formant2Freq], c[Formant2Q], c[Formant2Gain]),
                           Biquad(Peaking, c[Formant3Freq], c[Formant3Q], c[Formant3Gain])]
      && Downstream(chain.connections, FormantFilter(0)) == Some(FormantFilter(1))
      && Downstream(chain.connections, FormantFilter(1)) == Some(FormantFilter(2))
      && Downstream(chain.connections, FormantFilter(2)) == Some(NoteGain)
      && Downstream(chain.connections, NoteGain) == None
  {
    var formants := FormantsOf(c);
    var chain := ChainOf(formants);
    var links := chain.connections;
    assert links == [LinkOut(3, 2), LinkOut(3, 1), LinkOut(3, 0)];
    assert Downstream(links, NoteGain) == Downstream(links[1..], NoteGain)
        == Downstream(links[2..], NoteGain) == Downstream(links[3..], NoteGain);
    ChainFeedsForward(formants, 0);
    ChainFeedsForward(formants, 1);
    ChainFeedsForward(formants, 2);
  }

  /** With the defaults, A4 at full velocity gets all nine partials and
      peaks at 0.5 after 15 ms; at velocity 0 it gets five partials, peaks
      at 0.2 after 30 ms and starts its breath noise silent. */
  lemma DefaultVoiceAtVelocityExtremes(ratios: SemitoneRatios, startTime: real)
    ensures Complete(DefaultSaxConfig)
    ensures var loud := VoiceFor(DefaultSaxConfig, ratios, 69, startTime, 1.0, 127.0);
      && loud.frequency == 440.0
      && |loud.harmonics.partials| == 9
      && loud.envelope[1] == ExponentialRampToValueAtTime(0.5, startTime + 0.015)
    ensures var soft := VoiceFor(DefaultSaxConfig, ratios, 69, startTime, 1.0, 0.0);
      && |soft.harmonics.partials| == 5
      && soft.envelope[1] == ExponentialRampToValueAtTime(0.2, startTime + 0.03)
      && soft.breathNoise.gain[0].value == 0.0
  {
    DefaultComplete();
    DefaultVoicingFields();
    VoiceAtVelocityExtremes(DefaultSaxConfig, ratios, startTime);
  }

  lemma DefaultVoicingFields()
    ensures var c := DefaultSaxConfig;
      && c[MinHarmonics] == 5.0 && c[MaxHarmonics] == 9.0
      && c[PeakGainMin] == 0.2 && c[PeakGainMax] == 0.5
      && c[AttackTimeMin] == 0.015 && c[AttackTimeMax] == 0.03
  {
  }

  lemma VoiceAtVelocityExtremes(c: SaxSynthConfig, ratios: SemitoneRatios, startTime: real)
    requires Complete(c)
    requires c[MinHarmonics] == 5.0 && c[MaxHarmonics] == 9.0
    requires c[PeakGainMin] == 0.2 && c[PeakGainMax] == 0.5
    requires c[AttackTimeMin] == 0.015 && c[AttackTimeMax] == 0.03
    ensures var loud := VoiceFor(c, ratios, 69, startTime, 1.0, 127.0);
      && loud.frequency == 440.0
      && |loud.harmonics.partials| == 9
      && loud.envelope[1] == ExponentialRampToValueAtTime(0.5, startTime + 0.015)
    ensures var soft := VoiceFor(c, ratios, 69, startTime, 1.0, 0.0);
      && |soft.harmonics.partials| == 5
      && soft.envelope[1] == ExponentialRampToValueAtTime(0.2, startTime + 0.03)
      && soft.breathNoise.gain[0].value == 0.0
  {
    MidiToFreqOctave(ratios, 69);
    assert NormalizedVelocity(127.0) == 1.0 && NormalizedVelocity(0.0) == 0.0;
    assert NumHarmonics(c, 1.0) == 9 && NumHarmonics(c, 0.0) == 5;
  }

  // ---------------------------------------------------------------------
  // The synthesizer

  class SaxophoneSynthesizer {
    const semitoneRatios: SemitoneRatios
    var config: SaxSynthConfig
    /** The master gain's value. */
    var masterVolume: real
    /** The notes played so far, in order. */
    var voices: seq<Voice>

    ghost predicate Valid()
      reads this`config
    {
      Complete(config)
    }

    /** The defaults, overridden by the fields given. */
    constructor (semitoneRatios: SemitoneRatios, config: PartialSaxSynthConfig := map[])
      ensures Valid()
      ensures this.semitoneRatios == semitoneRatios
      ensures this.config == Merge(DefaultSaxConfig, config)
      ensures masterVolume == 1.0 && voices == []
    {
      DefaultComplete();
      this.semitoneRatios := semitoneRatios;
      this.config := Merge(DefaultSaxConfig, config);
      masterVolume := 1.0;
      voices := [];
    }

    /** Plays a note: derives its voice from the configuration and records
        it after the voices already playing, leaving them as they were. */
    method PlayNote(midi: int, startTime: real, duration: real, velocity: real := 80.0)
      requires Valid()
      modifies this`voices
      ensures voices == old(voices) + [VoiceFor(config, semitoneRatios, midi, startTime, duration, velocity)]
    {
      var frequency := MidiToFreq(semitoneRatios, midi);
      var normalizedVelocity := NormalizedVelocity(velocity);
      var formantChain := CreateFormantFilters();
      var harmonics := CreateHarmonicOscillators(frequency, startTime, duration, normalizedVelocity);
      var breathNoise := CreateBreathNoise(startTime, duration, normalizedVelocity);
      var transients := CreateAttackTransients(startTime, normalizedVelocity);
      var envelope := ApplyADSREnvelope(startTime, duration, normalizedVelocity);
      // Ramps the substrate would refuse are aimed at the envelope floor.
      breathNoise := breathNoise.(gain := AvoidZeroTargets(breathNoise.gain, EnvelopeFloor));
      envelope := AvoidZeroTargets(envelope, EnvelopeFloor);
      voices := voices + [Voice(midi, frequency, formantChain, harmonics, breathNoise, transients, envelope)];
    }

    method CreateHarmonicOscillators(fundamental: real, startTime: real, duration: real, velocity: real)
      returns (bank: HarmonicBank)
      requires Valid()
      ensures bank == HarmonicBankFor(config, fundamental, startTime, duration, velocity)
    {
      var numHarmonics :=
        (config[MinHarmonics] + velocity * (config[MaxHarmonics] - config[MinHarmonics])).Floor;
      var harmonicNumbers := HarmonicNumbers;
      var endTime := startTime + duration + 0.1;
      var limit := if numHarmonics < |harmonicNumbers| then numHarmonics else |harmonicNumbers|;
      ghost var c := config;
      ghost var spec := HarmonicBankFor(c, fundamental, startTime, duration, velocity).partials;
      assert numHarmonics == NumHarmonics(c, velocity);
      assert |spec| == if limit < 0 then 0 else limit;
      var partials: seq<Partial> := [];
      var i := 0;
      while i < limit
        invariant 0 <= i <= |spec|
        invariant config == c
        invariant partials == spec[..i]
      {
        // Every harmonic number is non-zero, so the source's skip of a
        // missing one never fires.
        var harmonicNum := harmonicNumbers[i];
        var amplitude := PartialGain(config, velocity, i);
        var vibrato := AddVibratoToOscillator(startTime, duration);
        var detune: seq<Automation> := [];
        if i == 0 {
          detune := detune + [SetValueAtTime(config[AttackPitchBend], startTime)];
          detune := detune + [ExponentialRampToValueAtTime(0.1, startTime + config[AttackPitchBendTime])];
        }
        var partial := Partial(harmonicNum, fundamental * harmonicNum as real, amplitude, detune, vibrato, startTime, endTime);
        BankPartial(c, fundamental, startTime, duration, velocity, i);
        assert partial == PartialFor(c, fundamental, startTime, duration, velocity, i);
        assert spec[..i + 1] == spec[..i] + [spec[i]];
        partials := partials + [partial];
        i := i + 1;
      }
      bank := HarmonicBank(config[HarmonicMixLevel], partials);
    }

    method AddVibratoToOscillator(startTime: real, duration: real) returns (lfo: Lfo)
      requires Valid()
      ensures lfo == VibratoFor(config, startTime, duration)
    {
      var depth: seq<Automation> := [];
      var vibratoStart := startTime + config[VibratoDelay];
      if vibratoStart < startTime + duration {
        depth := depth + [SetValueAtTime(0.0, vibratoStart)];
        depth := depth + [LinearRampToValueAtTime(config[VibratoDepth], vibratoStart + config[VibratoRampTime])];
      }
      lfo := Lfo(config[VibratoRate], 0.0, depth, startTime, startTime + duration + 0.1);
    }

    method CreateBreathNoise(startTime: real, duration: real, velocity: real) returns (noise: BreathNoise)
      requires Valid()
      ensures noise == BreathNoiseFor(config, startTime, duration, velocity)
    {
      var bandpass := Biquad(Bandpass, config[BreathNoiseFilterFreq], config[BreathNoiseFilterQ], DefaultGainDb);
      var attackLevel := config[BreathNoiseLevelAttack] * velocity;
      var sustainLevel := config[BreathNoiseLevelSustain] * velocity;
      var gain: seq<Automation> := [];
      gain := gain + [SetValueAtTime(attackLevel, startTime)];
      gain := gain + [ExponentialRampToValueAtTime(sustainLevel, startTime + config[BreathNoiseFadeTime])];
      gain := gain + [SetValueAtTime(sustainLevel, startTime + duration)];
      gain := gain + [ExponentialRampToValueAtTime(EnvelopeFloor, startTime + duration + 0.1)];
      noise := BreathNoise(duration + 0.1, bandpass, gain, startTime);
    }

    method CreateAttackTransients(startTime: real, velocity: real) returns (transients: AttackTransients)
      requires Valid()
      ensures transients == AttackTransientsFor(config, startTime, velocity)
    {
      var highpass := Biquad(Highpass, config[KeyClickFilterFreq], 1.0, DefaultGainDb);
      var click := Transient(config[KeyClickDuration], highpass, config[KeyClickGain] * velocity, startTime);
      var breathFilter :=
        Biquad(Bandpass, config[BreathAttackFilterFreq], config[BreathAttackFilterQ], DefaultGainDb);
      var breath := Transient(config[BreathAttackDuration], breathFilter, config[BreathAttackGain] * velocity, startTime);
      transients := AttackTransients(click, breath);
    }

    method ApplyADSREnvelope(startTime: real, duration: real, velocity: real) returns (gain: seq<Automation>)
      requires Valid()
      ensures gain == EnvelopeFor(config, startTime, duration, velocity)
    {
      var peakGain := PeakGain(config, velocity);
      var sustainGain := SustainGain(config, velocity);
      var attackTime := AttackTime(config, velocity);
      gain := [];
      gain := gain + [SetValueAtTime(EnvelopeFloor, startTime)];
      gain := gain + [ExponentialRampToValueAtTime(peakGain, startTime + attackTime)];
      gain := gain + [ExponentialRampToValueAtTime(sustainGain, startTime + attackTime + config[DecayTime])];
      gain := gain + [SetValueAtTime(sustainGain, startTime + duration)];
      gain := gain + [ExponentialRampToValueAtTime(EnvelopeFloor, startTime + duration + config[ReleaseTime])];
    }

    /** Builds the formant filters from the last to the first, each one
        connected to the node built before it. */
    method CreateFormantFilters() returns (chain: FormantChain)
      requires Valid()
      ensures chain == ChainOf(FormantsOf(config))
    {
      var formants := FormantsOf(config);
      var n := |formants|;
      var filters: seq<Biquad> := [];
      var connections: seq<Connection> := [];
      var currentNode := NoteGain;
      var i := n - 1;
      while i >= 0
        invariant -1 <= i < n
        invariant filters == seq(n - 1 - i, k requires 0 <= k < n - 1 - i => PeakingFilter(formants[i + 1 + k]))
        invariant connections == seq(n - 1 - i, k requires 0 <= k < n - 1 - i => LinkOut(n, n - 1 - k))
        invariant currentNode == if i + 1 == n then NoteGain else FormantFilter(i + 1)
      {
        var formant := formants[i];
        var filter := PeakingFilter(formant);
        connections := connections + [Connection(FormantFilter(i), currentNode)];
        filters := [filter] + filters;
        currentNode := FormantFilter(i);
        i := i - 1;
      }
      chain := FormantChain(filters, connections, currentNode);
    }

    method UpdateConfig(newConfig: PartialSaxSynthConfig)
      requires Valid()
      modifies this`config
      ensures Valid()
      ensures config == Merge(old(config), newConfig)
    {
      config := Merge(config, newConfig);
    }

    method ResetConfig()
      modifies this`config
      ensures Valid()
      ensures config == DefaultSaxConfig
    {
      DefaultComplete();
      config := DefaultSaxConfig;
    }

    method SetVolume(gain: real)
      modifies this`masterVolume
      ensures masterVolume == gain
    {
      masterVolume := gain;
    }
  }
}
