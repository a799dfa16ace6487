# Alto saxophone score model

This project models the core of an alto-saxophone practice tool. The backend
reads a MusicXML score and turns the first melodic part into note events. It
then builds a MIDI track that plays those events and looks up a fingering
for every note. The frontend follows playback on a timeline and synthesises
the saxophone sound with the Web Audio API.

The model is in Dafny and has one module per core source file, plus shared
helpers:

- `ScoreEvents` (backend/app/musicxml/parse.py): the first tempo mark and the
  monophonic event extraction. The extraction handles ties, rests, chords and
  the final flush of an open tie. `EventExtractor` is the object whose tie
  flush updates the running state in place.
- `MidiTrack` (parse.py): the conversion of the events into a MIDI track.
  Each event gives absolute note-on and note-off ticks, with Python's
  half-to-even `round`. The messages are stably sorted by tick and then
  turned into delta times.
- `Payload` (parse.py): the payload assembly. The events are transposed
  -9 semitones. Each event gets a fingering entry and the unsupported notes
  are collected. A single warning lists them, sorted and de-duplicated.
- `FingeringAlto` (backend/app/sax/fingering_alto.py): the 19 keys, the
  fingering table for written MIDI 58..89 and the key-state dictionary.
- `Timeline` (frontend/src/lib/timeline.ts): the playback clock and the
  search for the sounding event.
- `SaxAudio` (frontend/src/lib/saxAudio.ts): the tone filter, the reverb
  levels and taps, and the vibrato LFO.
- `SaxSynth` (frontend/src/lib/saxSynth.ts): the synthesiser's
  configuration and how partial configurations are merged into it. Each
  note is modelled as the Web Audio schedule it would create: harmonic
  partials, vibrato, breath noise, attack transients, the ADSR gain
  envelope and the formant filter chain. The class `SaxophoneSynthesizer`
  holds the configuration, the master volume and the voices it has played.
  A note at velocity 0 makes the source ask Web Audio for an exponential
  ramp to 0, which it refuses. `PlayNoteOutcome` models that outcome, and
  the synthesizer plays a corrected voice (see "## Findings").
- `AudioGraph` and `Wrappers`: Web Audio automation points and biquad
  filters; `Option` and `Result`.

Web Audio nodes are modelled as the values they are configured with, meaning
their parameters and their automation schedules. music21's score is modelled
as the list of metronome marks and the flattened list of notes, rests,
chords and other elements. Times, gains and frequencies are exact reals.

## Model

| member | source | states |
|---|---|---|
| ScoreEvents.FirstTempo | backend/app/musicxml/parse.py:29-35 | the tempo is never 0 |
| ScoreEvents.FirstTempoIsFirstMark | backend/app/musicxml/parse.py:31-35 | 120 when no mark has a tempo, otherwise the tempo of the first mark that has one |
| ScoreEvents.FirstTempoQpm | backend/app/musicxml/parse.py:29-35 | the loop over the marks returns the first mark's tempo, or 120 |
| ScoreEvents.EventExtractor.constructor | backend/app/musicxml/parse.py:64-67 | the extraction starts with no events, the clock at 0 and no tie chain open |
| ScoreEvents.EventExtractor.FlushTieIfAny | backend/app/musicxml/parse.py:69-91 | an open chain becomes one event at the clock; the clock moves on by its length and the chain closes; with no chain nothing changes |
| ScoreEvents.ExtractMonophonicEvents | backend/app/musicxml/parse.py:49-143 | the loop over the elements computes the extraction specification, failing on a chord with no pitches |
| ScoreEvents.FailureStops | backend/app/musicxml/parse.py:95-97 | once a prefix of the elements fails, the whole run fails the same way |
| ScoreEvents.RunAppend | backend/app/musicxml/parse.py:93-140 | running two lists of elements one after the other is running their concatenation |
| ScoreEvents.EmitKeepsNumbering | backend/app/musicxml/parse.py:122-140 | appending an untied note keeps every idx equal to its position, sounding == written + transpose, dur == ql × seconds per quarter |
| ScoreEvents.FlushKeepsNumbering | backend/app/musicxml/parse.py:69-91 | flushing a tie chain keeps that numbering |
| ScoreEvents.StepKeepsNumbering | backend/app/musicxml/parse.py:93-140 | every element keeps that numbering |
| ScoreEvents.RunKeepsNumbering | backend/app/musicxml/parse.py:93-140 | any run of elements keeps that numbering |
| ScoreEvents.ExtractedEventsNumbered | backend/app/musicxml/parse.py:52-58 | extracted events are numbered by position, sound transposed and last ql × 60/qpm; the metadata holds qpm, 60/qpm and the transposition |
| ScoreEvents.EmitKeepsOrder | backend/app/musicxml/parse.py:127-140 | appending a note keeps events non-overlapping and ending no later than the clock |
| ScoreEvents.FlushKeepsOrder | backend/app/musicxml/parse.py:76-89 | flushing a chain keeps that order |
| ScoreEvents.StepKeepsOrder | backend/app/musicxml/parse.py:93-140 | every element with a non-negative length keeps that order |
| ScoreEvents.RunKeepsOrder | backend/app/musicxml/parse.py:93-140 | any run of such elements keeps that order |
| ScoreEvents.ExtractedEventsInOrder | backend/app/musicxml/parse.py:49-143 | at a positive tempo, events start at non-negative times and each starts no earlier than the previous one ends |
| ScoreEvents.EmitKeepsBackToBack | backend/app/musicxml/parse.py:127-140 | appending a note keeps events laid end to end from 0 |
| ScoreEvents.FlushKeepsBackToBack | backend/app/musicxml/parse.py:76-89 | flushing a chain keeps events end to end |
| ScoreEvents.StepKeepsBackToBack | backend/app/musicxml/parse.py:93-140 | every element other than a rest keeps events end to end |
| ScoreEvents.RunKeepsBackToBack | backend/app/musicxml/parse.py:93-140 | any run without rests keeps events end to end |
| ScoreEvents.ExtractedEventsBackToBack | backend/app/musicxml/parse.py:49-143 | without rests the first event starts at 0 and each event starts exactly where the previous one ends |
| ScoreEvents.TiedNotesExtendChain | backend/app/musicxml/parse.py:109-113 | start/continue notes only add their lengths to an open chain |
| ScoreEvents.TieChainMerges | backend/app/musicxml/parse.py:109-120 | start, continues, stop produce exactly one event with the first note's pitch and the summed length |
| ScoreEvents.RestFlushesAndAdvances | backend/app/musicxml/parse.py:99-102 | a rest flushes an open chain, emits nothing itself and advances the clock by its length |
| ScoreEvents.SkippedElements | backend/app/musicxml/parse.py:95-105 | chords and other elements emit nothing and leave the clock and chain alone; a chord adds a warning; an empty chord is the only failure |
| ScoreEvents.OpenTieFlushedAtEnd | backend/app/musicxml/parse.py:109-142 | after any elements, a tie-start note and tied notes only, left open at the end, give exactly one more event: at the clock, with the chain's first pitch and spelling and its whole length (the open chain's plus the notes'), the warnings unchanged |
| ScoreEvents.QuarterAtHundredQpm | backend/app/musicxml/parse.py:52 | at 100 qpm a quarter lasts 0.6 s |
| ScoreEvents.RestOpensGap | backend/app/musicxml/parse.py:99-102 | for any elements before and after a rest, at a positive tempo with non-negative lengths: every event from after the rest starts at least the rest's length in seconds after every event from before it ends, a chain the rest flushes included |
| ScoreEvents.RestGapFrom | backend/app/musicxml/parse.py:99-142 | the same from any state in order: the rest's state, then whatever the later elements and the final flush append |
| ScoreEvents.GapKept | backend/app/musicxml/parse.py:69-140 | events ending `gap` before the clock stay `gap` ahead of every event appended at or after it |
| ScoreEvents.RestAfter | backend/app/musicxml/parse.py:99-102 | the state after a rest is the chain flushed and the clock advanced by the rest |
| ScoreEvents.ElapsedClock | backend/app/musicxml/parse.py:69-142 | after any elements, the clock plus the open chain's length × seconds per quarter is the summed note and rest length × seconds per quarter; with no chain open the chain's length is 0 |
| ScoreEvents.RunKeepsClock | backend/app/musicxml/parse.py:93-140 | any run keeps the clock plus the open chain at the elapsed length |
| ScoreEvents.StepKeepsClock | backend/app/musicxml/parse.py:93-140 | each element advances clock plus chain by its own length: a note or rest by its length, anything else by 0 |
| ScoreEvents.FlushKeepsClock | backend/app/musicxml/parse.py:69-91 | flushing moves the chain's length onto the clock and closes the chain |
| ScoreEvents.SecondsAdd | backend/app/musicxml/parse.py:76-127 | converting a sum of lengths to seconds is the sum of the conversions |
| ScoreEvents.FollowsTransitive | backend/app/musicxml/parse.py:69-140 | keeping earlier events and starting new ones at or after the clock composes over two stretches |
| ScoreEvents.EmitFollows | backend/app/musicxml/parse.py:127-140 | appending a note keeps the earlier events; with a non-negative length the new event and clock are not earlier than the old clock |
| ScoreEvents.FlushFollows | backend/app/musicxml/parse.py:69-91 | the same for flushing a chain |
| ScoreEvents.StepFollows | backend/app/musicxml/parse.py:93-140 | every element keeps the earlier events and, with non-negative lengths, adds events only at or after the clock |
| ScoreEvents.RunFollows | backend/app/musicxml/parse.py:93-140 | any run does the same, from a state in order |
| ScoreEvents.EarlierEndsFirst | backend/app/musicxml/parse.py:69-140 | in a state in order, an earlier event ends no later than a later one |
| ScoreEvents.EndsByClock | backend/app/musicxml/parse.py:69-140 | in a state in order every event has ended by the clock |
| ScoreEvents.UntiedNoteStartsAtElapsed | backend/app/musicxml/parse.py:122-140 | an untied note after any elements is the event right after the flushed earlier ones; it starts at their summed note and rest length × seconds per quarter, lasts its length × seconds per quarter and carries its pitch, sounding pitch and spelling |
| ScoreEvents.FlushedClock | backend/app/musicxml/parse.py:69-142 | after any elements and a flush, the clock is the summed note and rest length in seconds |
| ScoreEvents.EmittedAt | backend/app/musicxml/parse.py:122-140 | an untied note appends its event at the clock with its length in seconds |
| ScoreEvents.EventKept | backend/app/musicxml/parse.py:69-142 | an emitted event stays unchanged through any later elements and the final flush |
| ScoreEvents.ClockInSeconds | backend/app/musicxml/parse.py:76-127 | the clock law restated as products of lengths and seconds per quarter |
| ScoreEvents.EmptyChordStops | backend/app/musicxml/parse.py:95-97 | a chord with no pitches fails the run with `EmptyChord`, whatever comes before or after it |
| ScoreEvents.ChainPitch | backend/app/musicxml/parse.py:110-111 | the pitch an open chain carries: the first held note's |
| MidiTrack.RoundHalfEven | backend/app/musicxml/parse.py:161-162 | within 0.5 of x, and an exact half goes to the even integer |
| MidiTrack.RoundHalfEvenUnique | backend/app/musicxml/parse.py:161-162 | those two properties determine the rounding |
| MidiTrack.RoundHalfEvenMonotone | backend/app/musicxml/parse.py:161-162 | rounding preserves order |
| MidiTrack.AbsoluteMessagesPairs | backend/app/musicxml/parse.py:155-164 | two messages per event, in event order: note-on then note-off |
| MidiTrack.NotePair | backend/app/musicxml/parse.py:160-164 | note-on velocity 90 and note-off velocity 0 on the sounding pitch; the off is at least 1 tick after the on and exactly the duration after it when that is ≥ 1; the start tick is the start in beats × 480, rounded |
| MidiTrack.BuildAbsoluteMessages | backend/app/musicxml/parse.py:155-164 | the loop builds the absolute-tick messages |
| MidiTrack.AppendKeepsAscending | backend/app/musicxml/parse.py:166 | appending at or above every tick keeps ticks ascending |
| MidiTrack.InsertKeepsBound | backend/app/musicxml/parse.py:166 | insertion keeps an upper bound on ticks |
| MidiTrack.InsertKeepsAscending | backend/app/musicxml/parse.py:166 | insertion into an ascending list keeps it ascending |
| MidiTrack.InsertAddsOne | backend/app/musicxml/parse.py:166 | insertion adds exactly the inserted message |
| MidiTrack.AtTickAppend | backend/app/musicxml/parse.py:166 | the messages at one tick of a concatenation are those of each part, in order |
| MidiTrack.AtTickNone | backend/app/musicxml/parse.py:166 | a list with no message at a tick has none there |
| MidiTrack.InsertAtTick | backend/app/musicxml/parse.py:166 | insertion places the message after those already at its tick |
| MidiTrack.SortByTickAscending | backend/app/musicxml/parse.py:166 | the sort's result is in ascending tick order |
| MidiTrack.SortByTickPermutes | backend/app/musicxml/parse.py:166 | the sort's result is a permutation of its input |
| MidiTrack.SortByTickStable | backend/app/musicxml/parse.py:166 | messages with equal ticks keep their relative order |
| MidiTrack.WithDeltas | backend/app/musicxml/parse.py:167-172 | one delta message per sorted message |
| MidiTrack.AssignDeltas | backend/app/musicxml/parse.py:167-172 | the loop assigns each message max(0, tick − previous tick), the first from 0 |
| MidiTrack.DeltasReproduceTicks | backend/app/musicxml/parse.py:167-172 | on ascending non-negative ticks, the deltas up to a message sum to its absolute tick |
| MidiTrack.EventsToMidiTrack | backend/app/musicxml/parse.py:146-172 | the track is the tempo and 4/4 meta messages, then the sorted messages with delta times |
| MidiTrack.NonNegativeStartTick | backend/app/musicxml/parse.py:160-161 | an event at a non-negative time starts at a non-negative tick |
| MidiTrack.NonNegativeTicks | backend/app/musicxml/parse.py:155-164 | all absolute ticks are then non-negative |
| MidiTrack.TrackSchedule | backend/app/musicxml/parse.py:146-172 | the track has the meta messages and 2n messages; every note-on and note-off is in it; ticks ascend; equal ticks keep event order; the deltas reproduce every tick |
| MidiTrack.NoteOnsFollowEvents | backend/app/musicxml/parse.py:160-161 | a later event never gets an earlier start tick |
| Payload.BuildFingerings | backend/app/musicxml/parse.py:197-208 | the loop builds one fingering entry per event and lists each unsupported written note |
| Payload.InsertUnique | backend/app/musicxml/parse.py:211 | insertion into a strictly increasing list keeps it strictly increasing and adds exactly x |
| Payload.SortedUnique | backend/app/musicxml/parse.py:211 | strictly increasing, with the same members as the input |
| Payload.StrictlyIncreasingUnique | backend/app/musicxml/parse.py:211 | two strictly increasing lists with the same members are equal |
| Payload.LastIsMaximum | backend/app/musicxml/parse.py:211 | the last element of a strictly increasing list is its maximum |
| Payload.ParseMusicXmlToPayload | backend/app/musicxml/parse.py:179-222 | the method computes the payload specification: tempo, extraction at -9, MIDI, fingerings and warning |
| Payload.FingeringsFollowEvents | backend/app/musicxml/parse.py:199-206 | one fingering entry per event, in event order |
| Payload.UnsupportedListed | backend/app/musicxml/parse.py:207-208 | a note is listed iff some event's written note has no table entry |
| Payload.PayloadEventsAndMidi | backend/app/musicxml/parse.py:188-195 | the payload's events are numbered, sound 9 semitones below written at the first tempo, and its MIDI is the track of those events |
| Payload.PayloadFingerings | backend/app/musicxml/parse.py:197-206 | entry i is for event i, and its key states are true exactly for the keys its fingering presses |
| Payload.UnsupportedWarningContents | backend/app/musicxml/parse.py:210-215 | no warning iff every note is supported; otherwise one warning holding exactly the unsupported notes, sorted without duplicates |
| Payload.PayloadWarnings | backend/app/musicxml/parse.py:210-215 | the extraction's warnings are kept and the unsupported-notes warning comes after them, only when needed |
| Payload.EmptyChordFails | backend/app/musicxml/parse.py:95-97 | a chord with no pitches fails the whole parse with `EmptyChord` and no payload, whatever precedes or follows it |
| Payload.NoChordNoFailure | backend/app/musicxml/parse.py:93-140 | a score without chords never fails |
| FingeringAlto.KeyValueRoundTrip | backend/app/sax/fingering_alto.py:8-40 | each key's string value maps back to the key |
| FingeringAlto.KeyValueInjective | backend/app/sax/fingering_alto.py:8-40 | different keys have different values |
| FingeringAlto.FingeringForWrittenMidi | backend/app/sax/fingering_alto.py:58-65 | a table entry is returned as is; other notes get the all-up standard fingering |
| FingeringAlto.KeyStatesToDict | backend/app/sax/fingering_alto.py:53-55 | every key's value is in the dictionary, true exactly when pressed, and the dictionary has no other entries |
| FingeringAlto.SupportedRange | backend/app/sax/fingering_alto.py:67-68 | supported iff 58 <= written <= 89 |
| FingeringAlto.UnsupportedAllKeysUp | backend/app/sax/fingering_alto.py:58-65 | an unsupported note gets no pressed keys |
| FingeringAlto.OctaveKeyRegister | backend/app/sax/fingering_alto.py:115-149 | the octave key is pressed iff the note is written D5 (74) or higher |
| FingeringAlto.OctaveAbove | backend/app/sax/fingering_alto.py:115-139 | D5..C#6 use the fingering an octave below plus the octave key |
| FingeringAlto.RowsD5ToG5 | backend/app/sax/fingering_alto.py:115-127 | rows 74..79 are the rows 12 below plus the octave key |
| FingeringAlto.RowsAb5ToCSharp6 | backend/app/sax/fingering_alto.py:128-139 | rows 80..85 are the rows 12 below plus the octave key |
| FingeringAlto.PalmKeysAltissimo | backend/app/sax/fingering_alto.py:141-149 | palm keys are pressed only for D6..F6 |
| FingeringAlto.LowKeys | backend/app/sax/fingering_alto.py:79-88 | the low Bb, B, C and C# keys are pressed only for Bb3..C#4, each for its own note |
| FingeringAlto.KeyStatesCount | backend/app/sax/fingering_alto.py:53-55 | the dictionary has 19 entries, and as many are true as keys are pressed |
| FingeringAlto.KeyCount | backend/app/sax/fingering_alto.py:8-40 | there are 19 keys |
| FingeringAlto.DictKeysImage | backend/app/sax/fingering_alto.py:53-55 | the dictionary's keys are the values of all keys |
| FingeringAlto.PressedEntriesImage | backend/app/sax/fingering_alto.py:53-55 | the true entries are the values of the pressed keys |
| FingeringAlto.DistinctCardinality | backend/app/sax/fingering_alto.py:40 | a list of distinct keys has as many members as elements |
| FingeringAlto.ImageCardinality | backend/app/sax/fingering_alto.py:40 | distinct keys have distinct values |
| Timeline.CurrentTimeSec | frontend/src/lib/timeline.ts:16-19 | a paused timeline, or one not started, is at its paused time |
| Timeline.RunningClock | frontend/src/lib/timeline.ts:16-19 | a running clock is at the paused time at its start and advances one second per 1000 ms |
| Timeline.HalfOpenInterval | frontend/src/lib/timeline.ts:24 | an event is not sounding at its end time, and one of zero length never sounds |
| Timeline.FindActiveEventIndex | frontend/src/lib/timeline.ts:21-27 | null iff no event sounds at t; otherwise the idx of the first event that does |
| SaxAudio.CreateToneFilter | frontend/src/lib/saxAudio.ts:96-122 | low-pass below brightness 50, high-shelf from 50; Q is 1; the low-pass has no gain |
| SaxAudio.WarmCutoffRange | frontend/src/lib/saxAudio.ts:106-111 | the low-pass cutoff lies in [1000, 4000) for brightness in [0, 50) |
| SaxAudio.ShelfEndpoints | frontend/src/lib/saxAudio.ts:112-119 | the shelf sits at 2000 Hz with 0 dB at 50, and at 4000 Hz with 6 dB at 100 |
| SaxAudio.ToneFilterMonotone | frontend/src/lib/saxAudio.ts:106-119 | within each branch, more brightness gives a higher frequency and no less gain |
| SaxAudio.ReverbLevels | frontend/src/lib/saxAudio.ts:138-140 | the dry level is always 1 |
| SaxAudio.ReverbWetScale | frontend/src/lib/saxAudio.ts:138-140 | the wet level rises with the amount, from 0 at 0 to 0.3 at 100 |
| SaxAudio.ReverbTapsShape | frontend/src/lib/saxAudio.ts:143-148 | four taps, later ones quieter, all with gain in (0, 1) |
| SaxAudio.CreateVibratoEffect | frontend/src/lib/saxAudio.ts:60-90 | the LFO runs at the configured rate and swings half the configured depth either way |
| SaxSynth.DefaultComplete | frontend/src/lib/saxSynth.ts:101-152 | the defaults set every configuration field |
| SaxSynth.MergeOverwritesPresentFields | frontend/src/lib/saxSynth.ts:238 | a merge is complete; a field given in the overrides takes that value, others keep the base's |
| SaxSynth.MergeIdentityAndIdempotence | frontend/src/lib/saxSynth.ts:550-552 | merging nothing changes nothing; merging the same overrides twice equals merging once |
| SaxSynth.RestatingUpdatesChangeNothing | frontend/src/lib/saxSynth.ts:550-552 | updates that restate current values leave the configuration unchanged |
| SaxSynth.Pow2Step | frontend/src/lib/saxSynth.ts:542-544 | the power of two doubles with each step |
| SaxSynth.MidiToFreqOctave | frontend/src/lib/saxSynth.ts:542-544 | A4 (69) is 440 Hz and each octave doubles the frequency |
| SaxSynth.ReferencePitches | frontend/src/lib/saxSynth.ts:542-544 | A5 is 880 Hz and A3 is 220 Hz |
| SaxSynth.NumHarmonicsMonotone | frontend/src/lib/saxSynth.ts:294-296 | more velocity never gives fewer harmonics |
| SaxSynth.VelocityExtremes | frontend/src/lib/saxSynth.ts:250-296 | at velocity 0 and 127: minimum and maximum harmonic counts, peak gains and attack times |
| SaxSynth.EnvelopeRanges | frontend/src/lib/saxSynth.ts:495-499 | the attack time and peak gain stay between their configured bounds |
| SaxSynth.OddHarmonics | frontend/src/lib/saxSynth.ts:297 | harmonic i is 2i + 1 |
| SaxSynth.HarmonicBankShape | frontend/src/lib/saxSynth.ts:288-335 | the mix level; min(numHarmonics, 9) partials; each at fundamental × (2i+1) with gain 1/(2i+1) × rolloff^i × (1 + 0.3v), vibrato, start and stop; only the fundamental gets the pitch bend |
| SaxSynth.BankPartial | frontend/src/lib/saxSynth.ts:301-335 | partial i of the bank is the partial built for i |
| SaxSynth.PartialShape | frontend/src/lib/saxSynth.ts:302-334 | each partial has its frequency, gain, vibrato, times and detune as the source sets them |
| SaxSynth.EnvelopeShape | frontend/src/lib/saxSynth.ts:495-505 | five points: 0.001, ramp to the peak at the attack time, ramp to peak × sustain after the decay, hold at the note's end, ramp to 0.001 over the release |
| SaxSynth.EnvelopeTimesIncrease | frontend/src/lib/saxSynth.ts:501-505 | when attack + decay end before the note, the points are in strictly increasing time |
| SaxSynth.EnvelopeRampTargetsPositive | frontend/src/lib/saxSynth.ts:501-505 | with positive gains every exponential ramp's target is positive |
| SaxSynth.BreathNoiseShape | frontend/src/lib/saxSynth.ts:391-405 | the attack and sustain levels scale with velocity; the fade-out goes to 0.001; the band-pass has the configured frequency and Q |
| SaxSynth.ZeroVelocityThrows | frontend/src/lib/saxSynth.ts:399-403 | as written, a note at velocity 0 is refused with a RangeError whatever the configuration |
| SaxSynth.PlayNoteOutcome | frontend/src/lib/saxSynth.ts:248-505 | as written, a note is refused exactly when the breath noise or the envelope has an exponential ramp to 0; a note that is played is the corrected voice |
| SaxSynth.VoiceFor | frontend/src/lib/saxSynth.ts:248-505 | the corrected voice: always accepted, and it differs from the voice as written only in the breath noise's gain schedule and the envelope |
| SaxSynth.VoiceForSchedulable | frontend/src/lib/saxSynth.ts:399-505 | the corrected voice is always accepted; at velocity 0 its breath fades to 0.001 instead of 0; for velocities in (0, 127] with positive levels it is the voice as written |
| SaxSynth.SilentBreathFloored | frontend/src/lib/saxSynth.ts:399-403 | at velocity 0 the corrected breath noise fades to 0.001 where the source ramps to 0 |
| SaxSynth.AudibleSchedulesAccepted | frontend/src/lib/saxSynth.ts:399-505 | for a velocity in (0, 1] with positive levels, the breath noise and the envelope are accepted as written |
| SaxSynth.PositiveTargetsSchedulable | frontend/src/lib/saxSynth.ts:401-505 | positive ramp targets are accepted |
| AudioGraph.AvoidZeroTargets | frontend/src/lib/saxSynth.ts:401-505 | same length, always accepted, each exponential ramp to 0 aimed at the floor and every other point kept; a schedule already accepted is unchanged |
| SaxSynth.SilentAtZeroVelocity | frontend/src/lib/saxSynth.ts:399-403 | at velocity 0 the breath noise and transients are silent, and the breath ramp targets 0 |
| SaxSynth.AttackTransientsShape | frontend/src/lib/saxSynth.ts:440-483 | the high-pass key click (Q 1) and the band-pass breath burst, each at its gain × velocity, start with the note |
| SaxSynth.VibratoDepthCurve | frontend/src/lib/saxSynth.ts:341-366 | depth 0 until the onset, a linear ramp to the depth, then the depth; no ramp when the delay reaches the note's end |
| SaxSynth.DownstreamAt | frontend/src/lib/saxSynth.ts:532-533 | a node's first connection names the node it feeds |
| SaxSynth.ChainFeedsForward | frontend/src/lib/saxSynth.ts:519-536 | filter k is built from formant k and feeds filter k+1, the last feeding the destination; the chain's input is filter 0 |
| SaxSynth.FormantChainOrder | frontend/src/lib/saxSynth.ts:511-537 | the note passes formants 1, 2, 3 in order and then the note gain |
| SaxSynth.VoiceAtVelocityExtremes | frontend/src/lib/saxSynth.ts:248-276 | with the default bounds, a loud A4 is at 440 Hz with 9 partials peaking at 0.5 after 15 ms; a soft one has 5 partials, peaks at 0.2 after 30 ms and starts its breath silent (the corrected voice; the ramps named here are unchanged by the correction) |
| SaxSynth.DefaultVoicingFields | frontend/src/lib/saxSynth.ts:101-152 | the defaults' harmonic, peak-gain and attack bounds |
| SaxSynth.DefaultVoiceAtVelocityExtremes | frontend/src/lib/saxSynth.ts:101-152 | the same for the default configuration |
| SaxSynth.SaxophoneSynthesizer.constructor | frontend/src/lib/saxSynth.ts:232-239 | the configuration is the defaults merged with the given overrides |
| SaxSynth.SaxophoneSynthesizer.PlayNote | frontend/src/lib/saxSynth.ts:248-276 | appends the corrected voice for the note at velocity/127, leaving earlier voices as they were |
| SaxSynth.SaxophoneSynthesizer.CreateHarmonicOscillators | frontend/src/lib/saxSynth.ts:281-336 | the loop builds the harmonic bank specification |
| SaxSynth.SaxophoneSynthesizer.AddVibratoToOscillator | frontend/src/lib/saxSynth.ts:341-366 | the LFO specification for the note |
| SaxSynth.SaxophoneSynthesizer.CreateBreathNoise | frontend/src/lib/saxSynth.ts:371-412 | the breath noise specification |
| SaxSynth.SaxophoneSynthesizer.CreateAttackTransients | frontend/src/lib/saxSynth.ts:417-484 | the attack transient specification |
| SaxSynth.SaxophoneSynthesizer.ApplyADSREnvelope | frontend/src/lib/saxSynth.ts:489-506 | the envelope specification |
| SaxSynth.SaxophoneSynthesizer.CreateFormantFilters | frontend/src/lib/saxSynth.ts:511-537 | the loop built from the last formant down gives the formant chain |
| SaxSynth.SaxophoneSynthesizer.UpdateConfig | frontend/src/lib/saxSynth.ts:550-552 | the configuration becomes the old one merged with the update |
| SaxSynth.SaxophoneSynthesizer.ResetConfig | frontend/src/lib/saxSynth.ts:557-559 | the configuration becomes the defaults |
| SaxSynth.SaxophoneSynthesizer.SetVolume | frontend/src/lib/saxSynth.ts:564-566 | the master volume becomes the given gain |

## Left out

- Parsing MusicXML with music21, `_pick_part` and `part.flat`: the model takes the metronome marks and the flattened element list as inputs.
- `mido.bpm2tempo`, writing the MIDI file and base64: the set-tempo meta message holds the tempo in quarters per minute, and the track is the model's result.
- mido's check that notes lie in 0..127: a sounding note outside that range would raise there, and the model does not reject it.
- Floating point: times, gains and frequencies are exact reals. `RoundHalfEven` models Python's `round` on exact values, not on binary doubles.
- Python's float `qpm` truthiness: a mark's tempo is `None` or a value, and a value of 0 counts as missing, as in the source.
- The pitches of a chord are not sorted before the last one is taken: that sort is part of music21. In the source the last pitch is a music21 `Pitch`, not a `Note`, so the chord falls through to the skip at parse.py:104-105. It adds its warning but emits no event, does not advance the clock and does not flush a tie. The model does the same, and does not use the top note the warning text speaks of. Only an empty chord, where the source's `pitches[-1]` raises, has an outcome that depends on the pitches; it is modelled as the failure `EmptyChord`.
- SaxSynth.MidiToFreq: `Math.pow(2, k/12)` is irrational, so the twelve semitone ratios are a constructor parameter and only octaves are exact.
- White-noise buffers, `Math.random` and the `Math.exp` decay of the click and breath buffers: these are sample contents, not schedule.
- The sine carrier of the vibrato LFO and of the partials: the model keeps the LFO's rate and its depth schedule.
- The Web Audio nodes themselves, `connect` and `start`/`stop` calls beyond the times recorded, and the AudioContext clock.
- The Web Audio rule against exponential ramps to 0 is modelled only for what `playNote` schedules: `Schedulable` checks the breath noise and the envelope. The partials' detune ramp targets 0.1, so it is always accepted. The negative-value and time-ordering rules of automation are not modelled.
- SaxSynth.SaxophoneSynthesizer.PlayNote: records the corrected voice (see "## Findings"). The partials the source has already started when the RangeError interrupts it, and the missing transients and envelope, are summarised as `Failure(RangeError)` in `PlayNoteOutcome`; they are not recorded in the synthesizer's state.
- The presets in saxSynth.ts (lines 160-220) and saxAudio.ts (lines 20-46): they are constant data with no logic.
- The reverb's convolution impulse and the node wiring in saxAudio.ts: only the levels, taps and filter settings are modelled.
- The `if (!harmonicNum) continue` and `if (!formant) continue` checks: the indices are always in range, so they never fire.
- A partial configuration that sets a field to `undefined` explicitly: the model's overrides map only holds present fields.
- The HTTP layer (backend/app/main.py, backend/app/api/parse.py) and the frontend pages: they only forward requests.
- SaxAudio.ReverbLevels: its contract states the dry level; the wet level is stated by `ReverbWetScale`.

## Findings

| source | as written | input that shows it | evidently intended | confidence | as-written member | corrected member |
|---|---|---|---|---|---|---|
| frontend/src/lib/saxSynth.ts:399-403 | the breath noise ramps exponentially to `breathNoiseLevelSustain × velocity`, which is 0 at velocity 0; Web Audio refuses an exponential ramp to 0 with a RangeError, so `playNote` stops after the partials have started, and the attack transients and ADSR envelope (lines 272 and 275) are never scheduled | `playNote(69, t, 1, 0)` with any configuration | ramps that would target 0 end at the 0.001 floor used elsewhere in the envelope, and the note plays silently | not executed | SaxSynth.PlayNoteOutcome, SaxSynth.ZeroVelocityThrows | SaxSynth.VoiceFor, SaxSynth.VoiceForSchedulable |
