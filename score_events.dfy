/**
 * Monophonic note-event extraction from a flattened score: a state machine
 * over notes, rests and chords that merges tie chains into one event,
 * advances a running clock through notes and rests, and numbers the events
 * it emits. Score elements are given as data; parsing the score is not
 * modelled.
 */
module ScoreEvents {

  import opened Wrappers

  /** A written pitch: its MIDI number and its name with octave ("C4"). */
  datatype Pitch = Pitch(midi: int, nameWithOctave: string)

  /** The tie type of a note; `TieLetRing` is any other tie type. */
  datatype Tie = Untied | TieStart | TieContinue | TieStop | TieLetRing

  /** The elements a flattened score lists among its notes and rests. */
  datatype Element =
    | Rest(quarterLength: real)
    | Note(pitch: Pitch, quarterLength: real, tie: Tie)
    | Chord(pitches: seq<Pitch>)
    | OtherElement

  datatype NoteEvent = NoteEvent(
    idx: int,
    t0Sec: real,
    durSec: real,
    ql: real,
    midiWritten: int,
    midiSounding: int,
    spelling: string)

  datatype Warning =
    | ChordsDetected
    | UnsupportedWrittenNotes(midis: seq<int>)

  datatype Meta = Meta(qpm: real, secondsPerQuarter: real, transposeSemitonesSounding: int,
                       warnings: seq<Warning>)

  /** Taking the top pitch of a chord with no pitches fails. */
  datatype ParseError = EmptyChord

  datatype Extracted = Extracted(events: seq<NoteEvent>, meta: Meta)

  // ---------------------------------------------------------------------
  // Tempo

  /** The quarter-note tempo of the first metronome mark that has a
      non-zero one (marks without a tempo are None), else 120. */
  function FirstTempo(marks: seq<Option<real>>): (qpm: real)
    ensures qpm != 0.0
    decreases |marks|
  {
    if marks == [] then 120.0
    else if marks[0].Some? && marks[0].value != 0.0 then marks[0].value
    else FirstTempo(marks[1..])
  }

  predicate NoTempo(mark: Option<real>) {
    mark.None? || mark.value == 0.0
  }

  /** The tempo is 120 when no mark has a tempo, and otherwise the tempo
      of the first mark that has one. */
  lemma {:induction false} FirstTempoIsFirstMark(marks: seq<Option<real>>)
    ensures (forall k | 0 <= k < |marks| :: NoTempo(marks[k])) ==> FirstTempo(marks) == 120.0
    ensures forall k | 0 <= k < |marks| ::
      (!NoTempo(marks[k]) && forall j | 0 <= j < k :: NoTempo(marks[j])) ==> FirstTempo(marks) == marks[k].value
    decreases |marks|
  {
    if marks != [] && NoTempo(marks[0]) {
      FirstTempoIsFirstMark(marks[1..]);
      forall k | 1 <= k < |marks| && !NoTempo(marks[k]) && forall j | 0 <= j < k :: NoTempo(marks[j])
        ensures FirstTempo(marks) == marks[k].value
      {
        assert marks[1..][k - 1] == marks[k];
        assert forall j | 0 <= j < k - 1 :: NoTempo(marks[1..][j]) by {
          forall j | 0 <= j < k - 1 ensures NoTempo(marks[1..][j]) {
            assert marks[1..][j] == marks[j + 1];
          }
        }
      }
      assert forall k | 0 <= k < |marks[1..]| :: marks[1..][k] == marks[k + 1];
    }
  }

  /** `_first_tempo_qpm`: the loop over the metronome marks. */
  method FirstTempoQpm(marks: seq<Option<real>>) returns (qpm: real)
    ensures qpm == FirstTempo(marks)
  {
    var i := 0;
    while i < |marks|
      invariant 0 <= i <= |marks|
      invariant FirstTempo(marks[i..]) == FirstTempo(marks)
    {
      var mark := marks[i];
      if mark.Some? && mark.value != 0.0 {
        return mark.value;
      }
      assert marks[i..][1..] == marks[i + 1..];
      i := i + 1;
    }
    return 120.0;
  }

  // ---------------------------------------------------------------------
  // The extraction state machine, as a function of the elements

  /** The state the extraction carries from element to element: the events
      so far, the running clock, the first note of an open tie chain and
      the chain's accumulated quarter length, and the warnings. */
  datatype Extraction = Extraction(
    events: seq<NoteEvent>,
    t0Sec: real,
    curTiedPitch: Option<Pitch>,
    curTiedDurQl: real,
    warnings: seq<Warning>)

  const Start: Extraction := Extraction([], 0.0, None, 0.0, [])

  /** The length in seconds of a number of quarters. */
  function Seconds(quarterLength: real, secondsPerQuarter: real): real {
    quarterLength * secondsPerQuarter
  }

  /** Appends the next event at the running clock and advances the clock by
      its duration. */
  function Emit(s: Extraction, p: Pitch, ql: real, secondsPerQuarter: real, transpose: int): Extraction {
    var durSec := Seconds(ql, secondsPerQuarter);
    s.(events := s.events + [NoteEvent(|s.events|, s.t0Sec, durSec, ql, p.midi, p.midi + transpose, p.nameWithOctave)],
       t0Sec := s.t0Sec + durSec)
  }

  /** Emits the open tie chain, if there is one, and closes it. */
  function FlushTie(s: Extraction, secondsPerQuarter: real, transpose: int): Extraction {
    if s.curTiedPitch.None? then s
    else Emit(s, s.curTiedPitch.value, s.curTiedDurQl, secondsPerQuarter, transpose)
           .(curTiedPitch := None, curTiedDurQl := 0.0)
  }

  /** Adds a tied note to the open chain, opening it on this note's pitch
      if none is open. */
  function Hold(s: Extraction, p: Pitch, ql: real): Extraction {
    s.(curTiedPitch := if s.curTiedPitch.None? then Some(p) else s.curTiedPitch,
       curTiedDurQl := s.curTiedDurQl + ql)
  }

  /** One element. A chord is warned about and then skipped, since its top
      pitch is not a note; an empty chord fails. */
  function Step(s: Extraction, el: Element, secondsPerQuarter: real, transpose: int): Result<Extraction, ParseError> {
    match el
    case Chord(pitches) =>
      if pitches == [] then Failure(EmptyChord) else Success(s.(warnings := s.warnings + [ChordsDetected]))
    case Rest(ql) =>
      var f := FlushTie(s, secondsPerQuarter, transpose);
      Success(f.(t0Sec := f.t0Sec + Seconds(ql, secondsPerQuarter)))
    case OtherElement =>
      Success(s)
    case Note(p, ql, tie) =>
      if tie == TieStart || tie == TieContinue then Success(Hold(s, p, ql))
      else if tie == TieStop then Success(FlushTie(Hold(s, p, ql), secondsPerQuarter, transpose))
      else Success(Emit(FlushTie(s, secondsPerQuarter, transpose), p, ql, secondsPerQuarter, transpose))
  }

  /** The state after the elements, from `s`; the first failure stops it. */
  function RunFrom(s: Extraction, elements: seq<Element>, secondsPerQuarter: real, transpose: int)
    : Result<Extraction, ParseError>
    decreases |elements|
  {
    if elements == [] then Success(s)
    else match RunFrom(s, elements[..|elements| - 1], secondsPerQuarter, transpose)
      case Failure(e) => Failure(e)
      case Success(t) => Step(t, elements[|elements| - 1], secondsPerQuarter, transpose)
  }

  /** The whole extraction: every element, then the chain still open. */
  function Extract(elements: seq<Element>, qpm: real, transpose: int): Result<Extracted, ParseError>
    requires qpm != 0.0
  {
    var secondsPerQuarter := 60.0 / qpm;
    match RunFrom(Start, elements, secondsPerQuarter, transpose)
    case Failure(e) => Failure(e)
    case Success(s) =>
      var f := FlushTie(s, secondsPerQuarter, transpose);
      Success(Extracted(f.events, Meta(qpm, secondsPerQuarter, transpose, f.warnings)))
  }

  // ---------------------------------------------------------------------
  // The extraction as the source performs it

  /** The mutable state of one extraction, which the tie flush updates in
      place. */
  class EventExtractor {
    const secondsPerQuarter: real
    const transposeSemitones: int
    var events: seq<NoteEvent>
    var t0Sec: real
    var curTiedPitch: Option<Pitch>
    var curTiedDurQl: real
    var warnings: seq<Warning>

    function State(): Extraction
      reads this
    {
      Extraction(events, t0Sec, curTiedPitch, curTiedDurQl, warnings)
    }

    constructor (secondsPerQuarter: real, transposeSemitones: int)
      ensures State() == Start
      ensures this.secondsPerQuarter == secondsPerQuarter && this.transposeSemitones == transposeSemitones
    {
      this.secondsPerQuarter := secondsPerQuarter;
      this.transposeSemitones := transposeSemitones;
      events := [];
      t0Sec := 0.0;
      curTiedPitch := None;
      curTiedDurQl := 0.0;
      warnings := [];
    }

    method FlushTieIfAny()
      modifies this
      ensures State() == FlushTie(old(State()), secondsPerQuarter, transposeSemitones)
    {
      if curTiedPitch.None? {
        return;
      }
      var midiWritten := curTiedPitch.value.midi;
      var midiSounding := midiWritten + transposeSemitones;
      var spelling := curTiedPitch.value.nameWithOctave;
      var durSec := Seconds(curTiedDurQl, secondsPerQuarter);
      var idx := |events|;
      events := events + [NoteEvent(idx, t0Sec, durSec, curTiedDurQl, midiWritten, midiSounding, spelling)];
      t0Sec := t0Sec + durSec;
      curTiedPitch := None;
      curTiedDurQl := 0.0;
    }
  }

  /** Once the elements so far have failed, all of them fail the same way. */
  lemma {:induction false} FailureStops(s: Extraction, elements: seq<Element>, i: nat,
                                        secondsPerQuarter: real, transpose: int)
    requires i <= |elements|
    requires RunFrom(s, elements[..i], secondsPerQuarter, transpose).Failure?
    ensures RunFrom(s, elements, secondsPerQuarter, transpose)
            == RunFrom(s, elements[..i], secondsPerQuarter, transpose)
    decreases |elements| - i
  {
    if i < |elements| {
      assert elements[..i + 1][..i] == elements[..i];
      FailureStops(s, elements, i + 1, secondsPerQuarter, transpose);
    } else {
      assert elements[..i] == elements;
    }
  }

  /** A chord without pitches stops the run with `EmptyChord`, whatever
      precedes or follows it. */
  lemma EmptyChordStops(s: Extraction, before: seq<Element>, after: seq<Element>,
                        secondsPerQuarter: real, transpose: int)
    ensures RunFrom(s, before + [Chord([])] + after, secondsPerQuarter, transpose) == Failure(EmptyChord)
  {
    var els := before + [Chord([])] + after;
    assert els[..|before| + 1] == before + [Chord([])];
    assert (before + [Chord([])])[..|before|] == before;
    if RunFrom(s, before, secondsPerQuarter, transpose).Success? {
      FailureStops(s, els, |before| + 1, secondsPerQuarter, transpose);
    } else {
      assert els[..|before|] == before;
      FailureStops(s, els, |before|, secondsPerQuarter, transpose);
      assert RunFrom(s, before, secondsPerQuarter, transpose).error.EmptyChord?;
    }
  }

  method ExtractMonophonicEvents(elements: seq<Element>, qpm: real, transposeSemitones: int)
    returns (r: Result<Extracted, ParseError>)
    requires qpm != 0.0
    ensures r == Extract(elements, qpm, transposeSemitones)
  {
    var secondsPerQuarter := 60.0 / qpm;
    var x := new EventExtractor(secondsPerQuarter, transposeSemitones);
    var i := 0;
    while i < |elements|
      invariant 0 <= i <= |elements|
      invariant x.secondsPerQuarter == secondsPerQuarter && x.transposeSemitones == transposeSemitones
      invariant RunFrom(Start, elements[..i], secondsPerQuarter, transposeSemitones) == Success(x.State())
    {
      assert elements[..i + 1][..i] == elements[..i];
      var el := elements[i];
      match el {
        case Chord(pitches) =>
          x.warnings := x.warnings + [ChordsDetected];
          if |pitches| == 0 {
            FailureStops(Start, elements, i + 1, secondsPerQuarter, transposeSemitones);
            return Failure(EmptyChord);
          }
          // The top pitch is not a note, so the element is skipped.
        case Rest(ql) =>
          x.FlushTieIfAny();
          x.t0Sec := x.t0Sec + Seconds(ql, secondsPerQuarter);
        case OtherElement =>
        case Note(p, ql, tie) =>
          if tie == TieStart || tie == TieContinue {
            if x.curTiedPitch.None? {
              x.curTiedPitch := Some(p);
            }
            x.curTiedDurQl := x.curTiedDurQl + ql;
          } else if tie == TieStop {
            if x.curTiedPitch.None? {
              x.curTiedPitch := Some(p);
            }
            x.curTiedDurQl := x.curTiedDurQl + ql;
            x.FlushTieIfAny();
          } else {
            x.FlushTieIfAny();
            var midiWritten := p.midi;
            var midiSounding := midiWritten + transposeSemitones;
            var durSec := Seconds(ql, secondsPerQuarter);
            var idx := |x.events|;
            x.events := x.events
              + [NoteEvent(idx, x.t0Sec, durSec, ql, midiWritten, midiSounding, p.nameWithOctave)];
            x.t0Sec := x.t0Sec + durSec;
          }
      }
      i := i + 1;
    }
    assert elements[..i] == elements;
    x.FlushTieIfAny();
    r := Success(Extracted(x.events, Meta(qpm, secondsPerQuarter, transposeSemitones, x.warnings)));
  }

  // ---------------------------------------------------------------------
  // Properties of the extraction

  /** Running two element lists one after the other is running their
      concatenation. */
  lemma {:induction false} RunAppend(s: Extraction, a: seq<Element>, b: seq<Element>,
                                     secondsPerQuarter: real, transpose: int)
    ensures RunFrom(s, a + b, secondsPerQuarter, transpose)
            == match RunFrom(s, a, secondsPerQuarter, transpose)
               case Failure(e) => Failure(e)
               case Success(t) => RunFrom(t, b, secondsPerQuarter, transpose)
    decreases |b|
  {
    if b == [] {
      assert a + b == a;
    } else {
      assert (a + b)[..|a + b| - 1] == a + b[..|b| - 1];
      RunAppend(s, a, b[..|b| - 1], secondsPerQuarter, transpose);
    }
  }

  /** Every event is numbered by its position, sounds `transpose`
      semitones from its written pitch and lasts its quarter length in
      seconds. */
  ghost predicate WellNumbered(events: seq<NoteEvent>, secondsPerQuarter: real, transpose: int) {
    forall k | 0 <= k < |events| ::
      && events[k].idx == k
      && events[k].midiSounding == events[k].midiWritten + transpose
      && events[k].durSec == events[k].ql * secondsPerQuarter
  }

  lemma EmitKeepsNumbering(s: Extraction, p: Pitch, ql: real, secondsPerQuarter: real, transpose: int)
    requires WellNumbered(s.events, secondsPerQuarter, transpose)
    ensures WellNumbered(Emit(s, p, ql, secondsPerQuarter, transpose).events, secondsPerQuarter, transpose)
  {
    var events := Emit(s, p, ql, secondsPerQuarter, transpose).events;
    assert events == s.events + [events[|s.events|]];
  }

  lemma FlushKeepsNumbering(s: Extraction, secondsPerQuarter: real, transpose: int)
    requires WellNumbered(s.events, secondsPerQuarter, transpose)
    ensures WellNumbered(FlushTie(s, secondsPerQuarter, transpose).events, secondsPerQuarter, transpose)
  {
    if s.curTiedPitch.Some? {
      EmitKeepsNumbering(s, s.curTiedPitch.value, s.curTiedDurQl, secondsPerQuarter, transpose);
    }
  }

  lemma StepKeepsNumbering(s: Extraction, el: Element, secondsPerQuarter: real, transpose: int)
    requires WellNumbered(s.events, secondsPerQuarter, transpose)
    ensures Step(s, el, secondsPerQuarter, transpose).Success? ==>
      WellNumbered(Step(s, el, secondsPerQuarter, transpose).value.events, secondsPerQuarter, transpose)
  {
    match el
    case Rest(ql) =>
      FlushKeepsNumbering(s, secondsPerQuarter, transpose);
    case Note(p, ql, tie) =>
      if tie == TieStop {
        FlushKeepsNumbering(Hold(s, p, ql), secondsPerQuarter, transpose);
      } else if tie != TieStart && tie != TieContinue {
        FlushKeepsNumbering(s, secondsPerQuarter, transpose);
        EmitKeepsNumbering(FlushTie(s, secondsPerQuarter, transpose), p, ql, secondsPerQuarter, transpose);
      }
    case _ =>
  }

  lemma {:induction false} RunKeepsNumbering(s: Extraction, elements: seq<Element>,
                                             secondsPerQuarter: real, transpose: int)
    requires WellNumbered(s.events, secondsPerQuarter, transpose)
    ensures RunFrom(s, elements, secondsPerQuarter, transpose).Success? ==>
      WellNumbered(RunFrom(s, elements, secondsPerQuarter, transpose).value.events, secondsPerQuarter, transpose)
    decreases |elements|
  {
    if elements != [] {
      var prefix := elements[..|elements| - 1];
      RunKeepsNumbering(s, prefix, secondsPerQuarter, transpose);
      if RunFrom(s, prefix, secondsPerQuarter, transpose).Success? {
        StepKeepsNumbering(RunFrom(s, prefix, secondsPerQuarter, transpose).value,
                           elements[|elements| - 1], secondsPerQuarter, transpose);
      }
    }
  }

  /** Each extracted event's idx is its position, its sounding pitch is its
      written pitch transposed, and its duration is its quarter length at
      60/qpm seconds per quarter; the metadata records the tempo and the
      transposition. */
  lemma ExtractedEventsNumbered(elements: seq<Element>, qpm: real, transpose: int)
    requires qpm != 0.0
    ensures Extract(elements, qpm, transpose).Success? ==>
      var x := Extract(elements, qpm, transpose).value;
      && (forall k | 0 <= k < |x.events| ::
            && x.events[k].idx == k
            && x.events[k].midiSounding == x.events[k].midiWritten + transpose
            && x.events[k].durSec == x.events[k].ql * (60.0 / qpm))
      && x.meta.qpm == qpm && x.meta.secondsPerQuarter == 60.0 / qpm
      && x.meta.transposeSemitonesSounding == transpose
  {
    RunKeepsNumbering(Start, elements, 60.0 / qpm, transpose);
  }

  /** Rests and notes have non-negative quarter lengths. */
  predicate NonNegativeLengths(elements: seq<Element>) {
    forall k | 0 <= k < |elements| :: (elements[k].Rest? || elements[k].Note?) ==> 0.0 <= elements[k].quarterLength
  }

  /** The end of event k. */
  function EndSec(e: NoteEvent): real {
    e.t0Sec + e.durSec
  }

  /** Events start at non-negative times, each one no earlier than the end
      of the one before, and the clock is no earlier than the last end. */
  ghost predicate Chronological(s: Extraction) {
    && 0.0 <= s.t0Sec
    && 0.0 <= s.curTiedDurQl
    && (forall k | 0 <= k < |s.events| :: 0.0 <= s.events[k].t0Sec && 0.0 <= s.events[k].durSec)
    && (forall k | 0 <= k < |s.events| - 1 :: EndSec(s.events[k]) <= s.events[k + 1].t0Sec)
    && (|s.events| > 0 ==> EndSec(s.events[|s.events| - 1]) <= s.t0Sec)
  }

  lemma NonNegativeSeconds(ql: real, secondsPerQuarter: real)
    requires 0.0 <= ql && 0.0 < secondsPerQuarter
    ensures 0.0 <= Seconds(ql, secondsPerQuarter)
  {
  }

  lemma EmitKeepsOrder(s: Extraction, p: Pitch, ql: real, secondsPerQuarter: real, transpose: int)
    requires Chronological(s) && 0.0 <= ql && 0.0 < secondsPerQuarter
    ensures Chronological(Emit(s, p, ql, secondsPerQuarter, transpose))
  {
    NonNegativeSeconds(ql, secondsPerQuarter);
  }

  lemma FlushKeepsOrder(s: Extraction, secondsPerQuarter: real, transpose: int)
    requires Chronological(s) && 0.0 < secondsPerQuarter
    ensures Chronological(FlushTie(s, secondsPerQuarter, transpose))
  {
    if s.curTiedPitch.Some? {
      EmitKeepsOrder(s, s.curTiedPitch.value, s.curTiedDurQl, secondsPerQuarter, transpose);
    }
  }

  lemma StepKeepsOrder(s: Extraction, el: Element, secondsPerQuarter: real, transpose: int)
    requires Chronological(s) && 0.0 < secondsPerQuarter
    requires (el.Rest? || el.Note?) ==> 0.0 <= el.quarterLength
    ensures Step(s, el, secondsPerQuarter, transpose).Success? ==>
      Chronological(Step(s, el, secondsPerQuarter, transpose).value)
  {
    match el
    case Rest(ql) =>
      FlushKeepsOrder(s, secondsPerQuarter, transpose);
      NonNegativeSeconds(ql, secondsPerQuarter);
    case Note(p, ql, tie) =>
      if tie == TieStop {
        FlushKeepsOrder(Hold(s, p, ql), secondsPerQuarter, transpose);
      } else if tie != TieStart && tie != TieContinue {
        FlushKeepsOrder(s, secondsPerQuarter, transpose);
        EmitKeepsOrder(FlushTie(s, secondsPerQuarter, transpose), p, ql, secondsPerQuarter, transpose);
      }
    case _ =>
  }

  lemma {:induction false} RunKeepsOrder(s: Extraction, elements: seq<Element>,
                                         secondsPerQuarter: real, transpose: int)
    requires Chronological(s) && 0.0 < secondsPerQuarter && NonNegativeLengths(elements)
    ensures RunFrom(s, elements, secondsPerQuarter, transpose).Success? ==>
      Chronological(RunFrom(s, elements, secondsPerQuarter, transpose).value)
    decreases |elements|
  {
    if elements != [] {
      var prefix := elements[..|elements| - 1];
      RunKeepsOrder(s, prefix, secondsPerQuarter, transpose);
      if RunFrom(s, prefix, secondsPerQuarter, transpose).Success? {
        StepKeepsOrder(RunFrom(s, prefix, secondsPerQuarter, transpose).value,
                       elements[|elements| - 1], secondsPerQuarter, transpose);
      }
    }
  }

  /** At a positive tempo, with non-negative lengths, events start at
      non-negative times and never overlap: each starts no earlier than the
      previous one ends. */
  lemma ExtractedEventsInOrder(elements: seq<Element>, qpm: real, transpose: int)
    requires 0.0 < qpm && NonNegativeLengths(elements)
    ensures Extract(elements, qpm, transpose).Success? ==>
      var events := Extract(elements, qpm, transpose).value.events;
      && (forall k | 0 <= k < |events| :: 0.0 <= events[k].t0Sec && 0.0 <= events[k].durSec)
      && (forall k | 0 <= k < |events| - 1 :: events[k].t0Sec + events[k].durSec <= events[k + 1].t0Sec)
  {
    var spq := 60.0 / qpm;
    RunKeepsOrder(Start, elements, spq, transpose);
    if RunFrom(Start, elements, spq, transpose).Success? {
      FlushKeepsOrder(RunFrom(Start, elements, spq, transpose).value, spq, transpose);
    }
  }

  /** Without rests, events are laid end to end from time 0. */
  ghost predicate BackToBack(s: Extraction) {
    && (|s.events| == 0 ==> s.t0Sec == 0.0)
    && (|s.events| > 0 ==> s.events[0].t0Sec == 0.0 && EndSec(s.events[|s.events| - 1]) == s.t0Sec)
    && (forall k | 0 <= k < |s.events| - 1 :: EndSec(s.events[k]) == s.events[k + 1].t0Sec)
  }

  predicate NoRests(elements: seq<Element>) {
    forall k | 0 <= k < |elements| :: !elements[k].Rest?
  }

  lemma EmitKeepsBackToBack(s: Extraction, p: Pitch, ql: real, secondsPerQuarter: real, transpose: int)
    requires BackToBack(s)
    ensures BackToBack(Emit(s, p, ql, secondsPerQuarter, transpose))
  {
  }

  lemma FlushKeepsBackToBack(s: Extraction, secondsPerQuarter: real, transpose: int)
    requires BackToBack(s)
    ensures BackToBack(FlushTie(s, secondsPerQuarter, transpose))
  {
    if s.curTiedPitch.Some? {
      EmitKeepsBackToBack(s, s.curTiedPitch.value, s.curTiedDurQl, secondsPerQuarter, transpose);
    }
  }

  lemma StepKeepsBackToBack(s: Extraction, el: Element, secondsPerQuarter: real, transpose: int)
    requires BackToBack(s) && !el.Rest?
    ensures Step(s, el, secondsPerQuarter, transpose).Success? ==>
      BackToBack(Step(s, el, secondsPerQuarter, transpose).value)
  {
    match el
    case Note(p, ql, tie) =>
      if tie == TieStop {
        FlushKeepsBackToBack(Hold(s, p, ql), secondsPerQuarter, transpose);
      } else if tie != TieStart && tie != TieContinue {
        FlushKeepsBackToBack(s, secondsPerQuarter, transpose);
        EmitKeepsBackToBack(FlushTie(s, secondsPerQuarter, transpose), p, ql, secondsPerQuarter, transpose);
      }
    case _ =>
  }

  lemma {:induction false} RunKeepsBackToBack(s: Extraction, elements: seq<Element>,
                                              secondsPerQuarter: real, transpose: int)
    requires BackToBack(s) && NoRests(elements)
    ensures RunFrom(s, elements, secondsPerQuarter, transpose).Success? ==>
      BackToBack(RunFrom(s, elements, secondsPerQuarter, transpose).value)
    decreases |elements|
  {
    if elements != [] {
      var prefix := elements[..|elements| - 1];
      RunKeepsBackToBack(s, prefix, secondsPerQuarter, transpose);
      if RunFrom(s, prefix, secondsPerQuarter, transpose).Success? {
        StepKeepsBackToBack(RunFrom(s, prefix, secondsPerQuarter, transpose).value,
                            elements[|elements| - 1], secondsPerQuarter, transpose);
      }
    }
  }

  /** Without rests, the extracted events are laid end to end from time 0:
      each starts exactly where the previous one ends. */
  lemma ExtractedEventsBackToBack(elements: seq<Element>, qpm: real, transpose: int)
    requires qpm != 0.0 && NoRests(elements)
    ensures Extract(elements, qpm, transpose).Success? ==>
      var events := Extract(elements, qpm, transpose).value.events;
      && (|events| > 0 ==> events[0].t0Sec == 0.0)
      && (forall k | 0 <= k < |events| - 1 :: events[k].t0Sec + events[k].durSec == events[k + 1].t0Sec)
  {
    var spq := 60.0 / qpm;
    RunKeepsBackToBack(Start, elements, spq, transpose);
    if RunFrom(Start, elements, spq, transpose).Success? {
      FlushKeepsBackToBack(RunFrom(Start, elements, spq, transpose).value, spq, transpose);
    }
  }

  /** The summed quarter length of the notes and rests among elements. */
  function QuarterLengths(elements: seq<Element>): real
    decreases |elements|
  {
    if elements == [] then 0.0
    else
      var last := elements[|elements| - 1];
      QuarterLengths(elements[..|elements| - 1]) + (if last.Rest? || last.Note? then last.quarterLength else 0.0)
  }

  /** Notes tied on both sides (or re-opening the tie). */
  predicate TiedThrough(elements: seq<Element>) {
    forall k | 0 <= k < |elements| ::
      elements[k].Note? && (elements[k].tie == TieStart || elements[k].tie == TieContinue)
  }

  lemma {:induction false} TiedNotesExtendChain(s: Extraction, middle: seq<Element>,
                                                secondsPerQuarter: real, transpose: int)
    requires s.curTiedPitch.Some? && TiedThrough(middle)
    ensures RunFrom(s, middle, secondsPerQuarter, transpose)
            == Success(s.(curTiedDurQl := s.curTiedDurQl + QuarterLengths(middle)))
    decreases |middle|
  {
    if middle != [] {
      TiedNotesExtendChain(s, middle[..|middle| - 1], secondsPerQuarter, transpose);
    }
  }

  /** A tie chain from a state with no chain open yields exactly one event,
      at the running clock, with the chain's first pitch and spelling and
      the chain's summed quarter length; afterwards no chain is open. */
  lemma TieChainMerges(s: Extraction, first: Pitch, firstQl: real, middle: seq<Element>,
                       last: Pitch, lastQl: real, secondsPerQuarter: real, transpose: int)
    requires s.curTiedPitch.None? && s.curTiedDurQl == 0.0 && TiedThrough(middle)
    ensures var chain := [Note(first, firstQl, TieStart)] + middle + [Note(last, lastQl, TieStop)];
      RunFrom(s, chain, secondsPerQuarter, transpose)
      == Success(Emit(s, first, firstQl + QuarterLengths(middle) + lastQl, secondsPerQuarter, transpose))
  {
    var opening := [Note(first, firstQl, TieStart)];
    var closing := [Note(last, lastQl, TieStop)];
    var afterStart := Hold(s, first, firstQl);
    assert opening[..0] == [];
    assert RunFrom(s, opening, secondsPerQuarter, transpose) == Success(afterStart);
    TiedNotesExtendChain(afterStart, middle, secondsPerQuarter, transpose);
    RunAppend(s, opening, middle, secondsPerQuarter, transpose);
    RunAppend(s, opening + middle, closing, secondsPerQuarter, transpose);
    var held := afterStart.(curTiedDurQl := afterStart.curTiedDurQl + QuarterLengths(middle));
    assert closing[..0] == [];
    assert RunFrom(held, closing, secondsPerQuarter, transpose) == Step(held, closing[0], secondsPerQuarter, transpose);
  }

  /** A rest emits no event of its own: it closes an open tie chain and
      then advances the clock by its length. */
  lemma RestFlushesAndAdvances(s: Extraction, ql: real, secondsPerQuarter: real, transpose: int)
    ensures var r := Step(s, Rest(ql), secondsPerQuarter, transpose);
      && r.Success?
      && r.value.curTiedPitch.None?
      && r.value.warnings == s.warnings
      && (s.curTiedPitch.None? ==>
            r.value.events == s.events && r.value.t0Sec == s.t0Sec + ql * secondsPerQuarter)
      && (s.curTiedPitch.Some? ==>
            var chain := s.curTiedDurQl * secondsPerQuarter;
            && r.value.events == s.events + [NoteEvent(|s.events|, s.t0Sec, chain, s.curTiedDurQl,
                                                       s.curTiedPitch.value.midi,
                                                       s.curTiedPitch.value.midi + transpose,
                                                       s.curTiedPitch.value.nameWithOctave)]
            && r.value.t0Sec == s.t0Sec + chain + ql * secondsPerQuarter)
  {
    assert Seconds(s.curTiedDurQl, secondsPerQuarter) == s.curTiedDurQl * secondsPerQuarter;
    assert Seconds(ql, secondsPerQuarter) == ql * secondsPerQuarter;
  }

  /** A chord and any element that is neither a note nor a rest emit
      nothing, leave the clock and the tie chain alone; a chord adds one
      warning, and a chord without pitches fails. */
  lemma SkippedElements(s: Extraction, el: Element, secondsPerQuarter: real, transpose: int)
    requires el.Chord? || el.OtherElement?
    ensures el.Chord? && el.pitches == [] <==> Step(s, el, secondsPerQuarter, transpose).Failure?
    ensures Step(s, el, secondsPerQuarter, transpose).Success? ==>
      var t := Step(s, el, secondsPerQuarter, transpose).value;
      && t.events == s.events && t.t0Sec == s.t0Sec
      && t.curTiedPitch == s.curTiedPitch && t.curTiedDurQl == s.curTiedDurQl
      && t.warnings == s.warnings + (if el.Chord? then [ChordsDetected] else [])
  {
  }

  /** At 100 quarters per minute a quarter lasts 0.6 s. */
  lemma QuarterAtHundredQpm(p: Pitch)
    ensures Extract([Note(p, 1.0, Untied)], 100.0, -9)
      == Success(Extracted([NoteEvent(0, 0.0, 0.6, 1.0, p.midi, p.midi - 9, p.nameWithOctave)],
                           Meta(100.0, 0.6, -9, [])))
  {
    var els := [Note(p, 1.0, Untied)];
    assert els[..0] == [];
    assert 60.0 / 100.0 == 0.6;
    assert RunFrom(Start, els, 0.6, -9) == Success(Emit(Start, p, 1.0, 0.6, -9));
    assert Seconds(1.0, 0.6) == 0.6;
    var e := Emit(Start, p, 1.0, 0.6, -9);
    assert e.curTiedPitch == None && e.warnings == [];
    assert e.events == [NoteEvent(0, 0.0, 0.6, 1.0, p.midi, p.midi - 9, p.nameWithOctave)];
  }

  // ---------------------------------------------------------------------
  // The running clock

  lemma SecondsAdd(a: real, b: real, secondsPerQuarter: real)
    ensures Seconds(a + b, secondsPerQuarter) == Seconds(a, secondsPerQuarter) + Seconds(b, secondsPerQuarter)
  {
  }

  /** The clock plus the open chain's length is `elapsed` quarters in
      seconds, and a state with no chain open holds no chain length. */
  ghost predicate ClockAt(s: Extraction, elapsed: real, secondsPerQuarter: real) {
    && (s.curTiedPitch.None? ==> s.curTiedDurQl == 0.0)
    && s.t0Sec + Seconds(s.curTiedDurQl, secondsPerQuarter) == Seconds(elapsed, secondsPerQuarter)
  }

  lemma FlushKeepsClock(s: Extraction, elapsed: real, secondsPerQuarter: real, transpose: int)
    requires ClockAt(s, elapsed, secondsPerQuarter)
    ensures ClockAt(FlushTie(s, secondsPerQuarter, transpose), elapsed, secondsPerQuarter)
    ensures FlushTie(s, secondsPerQuarter, transpose).curTiedPitch.None?
  {
  }

  lemma StepKeepsClock(s: Extraction, el: Element, secondsPerQuarter: real, transpose: int, elapsed: real)
    requires ClockAt(s, elapsed, secondsPerQuarter)
    ensures Step(s, el, secondsPerQuarter, transpose).Success? ==>
      ClockAt(Step(s, el, secondsPerQuarter, transpose).value,
              elapsed + (if el.Rest? || el.Note? then el.quarterLength else 0.0), secondsPerQuarter)
  {
    match el
    case Rest(ql) =>
      FlushKeepsClock(s, elapsed, secondsPerQuarter, transpose);
      SecondsAdd(elapsed, ql, secondsPerQuarter);
    case Note(p, ql, tie) =>
      SecondsAdd(elapsed, ql, secondsPerQuarter);
      SecondsAdd(s.curTiedDurQl, ql, secondsPerQuarter);
      if tie == TieStop {
        FlushKeepsClock(Hold(s, p, ql), elapsed + ql, secondsPerQuarter, transpose);
      } else if tie != TieStart && tie != TieContinue {
        FlushKeepsClock(s, elapsed, secondsPerQuarter, transpose);
      }
    case _ =>
  }

  lemma {:induction false} RunKeepsClock(s: Extraction, elements: seq<Element>,
                                         secondsPerQuarter: real, transpose: int, elapsed: real)
    requires ClockAt(s, elapsed, secondsPerQuarter)
    ensures RunFrom(s, elements, secondsPerQuarter, transpose).Success? ==>
      ClockAt(RunFrom(s, elements, secondsPerQuarter, transpose).value,
              elapsed + QuarterLengths(elements), secondsPerQuarter)
    decreases |elements|
  {
    if elements != [] {
      var prefix := elements[..|elements| - 1];
      RunKeepsClock(s, prefix, secondsPerQuarter, transpose, elapsed);
      if RunFrom(s, prefix, secondsPerQuarter, transpose).Success? {
        StepKeepsClock(RunFrom(s, prefix, secondsPerQuarter, transpose).value, elements[|elements| - 1],
                       secondsPerQuarter, transpose, elapsed + QuarterLengths(prefix));
      }
    }
  }

  /** After any elements, the clock plus the open tie chain is the summed
      length, in seconds, of every note and rest so far; with no chain open
      the clock alone is. */
  lemma ElapsedClock(elements: seq<Element>, secondsPerQuarter: real, transpose: int)
    ensures RunFrom(Start, elements, secondsPerQuarter, transpose).Success? ==>
      var s := RunFrom(Start, elements, secondsPerQuarter, transpose).value;
      && (s.curTiedPitch.None? ==> s.curTiedDurQl == 0.0)
      && s.t0Sec + s.curTiedDurQl * secondsPerQuarter == QuarterLengths(elements) * secondsPerQuarter
  {
    RunKeepsClock(Start, elements, secondsPerQuarter, transpose, 0.0);
    if RunFrom(Start, elements, secondsPerQuarter, transpose).Success? {
      var s := RunFrom(Start, elements, secondsPerQuarter, transpose).value;
      assert 0.0 + QuarterLengths(elements) == QuarterLengths(elements);
      ClockInSeconds(s, QuarterLengths(elements), secondsPerQuarter);
    }
  }

  lemma ClockInSeconds(s: Extraction, elapsed: real, secondsPerQuarter: real)
    requires ClockAt(s, elapsed, secondsPerQuarter)
    ensures s.t0Sec + s.curTiedDurQl * secondsPerQuarter == elapsed * secondsPerQuarter
  {
  }

  // ---------------------------------------------------------------------
  // Events are only ever appended, at or after the clock

  /** `t` has the events of `s` and possibly more after them. */
  ghost predicate Extends(t: Extraction, s: Extraction) {
    |s.events| <= |t.events| && t.events[..|s.events|] == s.events
  }

  /** `t`'s clock and the events it added to `s`'s are no earlier than
      `s`'s clock. */
  ghost predicate StartsNoEarlier(t: Extraction, s: Extraction) {
    && s.t0Sec <= t.t0Sec
    && forall k | |s.events| <= k < |t.events| :: s.t0Sec <= t.events[k].t0Sec
  }

  lemma FollowsTransitive(s: Extraction, t: Extraction, u: Extraction)
    requires Extends(t, s) && Extends(u, t)
    ensures Extends(u, s)
    ensures StartsNoEarlier(t, s) && StartsNoEarlier(u, t) ==> StartsNoEarlier(u, s)
  {
    assert u.events[..|s.events|] == u.events[..|t.events|][..|s.events|];
    forall k | |s.events| <= k < |t.events|
      ensures u.events[k] == t.events[k]
    {
      assert u.events[..|t.events|][k] == u.events[k];
    }
  }

  lemma EmitFollows(s: Extraction, p: Pitch, ql: real, secondsPerQuarter: real, transpose: int)
    ensures Extends(Emit(s, p, ql, secondsPerQuarter, transpose), s)
    ensures 0.0 <= ql && 0.0 < secondsPerQuarter ==> StartsNoEarlier(Emit(s, p, ql, secondsPerQuarter, transpose), s)
  {
    assert Emit(s, p, ql, secondsPerQuarter, transpose).events[..|s.events|] == s.events;
    if 0.0 <= ql && 0.0 < secondsPerQuarter {
      NonNegativeSeconds(ql, secondsPerQuarter);
    }
  }

  lemma FlushFollows(s: Extraction, secondsPerQuarter: real, transpose: int)
    ensures Extends(FlushTie(s, secondsPerQuarter, transpose), s)
    ensures 0.0 <= s.curTiedDurQl && 0.0 < secondsPerQuarter ==>
      StartsNoEarlier(FlushTie(s, secondsPerQuarter, transpose), s)
  {
    if s.curTiedPitch.Some? {
      EmitFollows(s, s.curTiedPitch.value, s.curTiedDurQl, secondsPerQuarter, transpose);
    } else {
      assert s.events[..|s.events|] == s.events;
    }
  }

  lemma StepFollows(s: Extraction, el: Element, secondsPerQuarter: real, transpose: int)
    ensures Step(s, el, secondsPerQuarter, transpose).Success? ==>
      Extends(Step(s, el, secondsPerQuarter, transpose).value, s)
    ensures Step(s, el, secondsPerQuarter, transpose).Success? && 0.0 <= s.curTiedDurQl && 0.0 < secondsPerQuarter
            && ((el.Rest? || el.Note?) ==> 0.0 <= el.quarterLength) ==>
      StartsNoEarlier(Step(s, el, secondsPerQuarter, transpose).value, s)
  {
    assert s.events[..|s.events|] == s.events;
    match el
    case Rest(ql) =>
      FlushFollows(s, secondsPerQuarter, transpose);
      if 0.0 <= ql && 0.0 < secondsPerQuarter {
        NonNegativeSeconds(ql, secondsPerQuarter);
      }
    case Note(p, ql, tie) =>
      if tie == TieStop {
        FlushFollows(Hold(s, p, ql), secondsPerQuarter, transpose);
      } else if tie != TieStart && tie != TieContinue {
        var f := FlushTie(s, secondsPerQuarter, transpose);
        FlushFollows(s, secondsPerQuarter, transpose);
        EmitFollows(f, p, ql, secondsPerQuarter, transpose);
        FollowsTransitive(s, f, Emit(f, p, ql, secondsPerQuarter, transpose));
      }
    case _ =>
  }

  lemma {:induction false} RunFollows(s: Extraction, elements: seq<Element>, secondsPerQuarter: real, transpose: int)
    ensures RunFrom(s, elements, secondsPerQuarter, transpose).Success? ==>
      Extends(RunFrom(s, elements, secondsPerQuarter, transpose).value, s)
    ensures RunFrom(s, elements, secondsPerQuarter, transpose).Success? && Chronological(s)
            && 0.0 < secondsPerQuarter && NonNegativeLengths(elements) ==>
      StartsNoEarlier(RunFrom(s, elements, secondsPerQuarter, transpose).value, s)
    decreases |elements|
  {
    if elements == [] {
      assert s.events[..|s.events|] == s.events;
    } else {
      var prefix := elements[..|elements| - 1];
      RunFollows(s, prefix, secondsPerQuarter, transpose);
      if RunFrom(s, prefix, secondsPerQuarter, transpose).Success? {
        var t := RunFrom(s, prefix, secondsPerQuarter, transpose).value;
        var last := elements[|elements| - 1];
        StepFollows(t, last, secondsPerQuarter, transpose);
        if Chronological(s) && 0.0 < secondsPerQuarter && NonNegativeLengths(elements) {
          RunKeepsOrder(s, prefix, secondsPerQuarter, transpose);
        }
        if Step(t, last, secondsPerQuarter, transpose).Success? {
          FollowsTransitive(s, t, Step(t, last, secondsPerQuarter, transpose).value);
        }
      }
    }
  }

  /** In a chronological state every event ends by the clock. */
  lemma {:induction false} EarlierEndsFirst(s: Extraction, j: nat, k: nat)
    requires Chronological(s) && j <= k < |s.events|
    ensures EndSec(s.events[j]) <= EndSec(s.events[k])
    decreases k - j
  {
    if j < k {
      EarlierEndsFirst(s, j, k - 1);
    }
  }

  lemma EndsByClock(s: Extraction)
    requires Chronological(s)
    ensures forall j | 0 <= j < |s.events| :: EndSec(s.events[j]) <= s.t0Sec
  {
    forall j | 0 <= j < |s.events|
      ensures EndSec(s.events[j]) <= s.t0Sec
    {
      EarlierEndsFirst(s, j, |s.events| - 1);
    }
  }

  // ---------------------------------------------------------------------
  // Where events start

  /** An untied note starts at the summed length, in seconds, of every note
      and rest before it, whatever ties and chords came first. */
  lemma UntiedNoteStartsAtElapsed(before: seq<Element>, p: Pitch, q: real, after: seq<Element>,
                                  qpm: real, transpose: int)
    requires qpm != 0.0
    ensures var spq := 60.0 / qpm;
      var x := Extract(before + [Note(p, q, Untied)] + after, qpm, transpose);
      x.Success? ==>
        && RunFrom(Start, before, spq, transpose).Success?
        && var n := |FlushTie(RunFrom(Start, before, spq, transpose).value, spq, transpose).events|;
           && n < |x.value.events|
           && x.value.events[n]
              == NoteEvent(n, Seconds(QuarterLengths(before), spq), Seconds(q, spq), q, p.midi, p.midi + transpose,
                           p.nameWithOctave)
  {
    var spq := 60.0 / qpm;
    var mid := before + [Note(p, q, Untied)];
    assert mid[..|before|] == before;
    RunAppend(Start, mid, after, spq, transpose);
    if RunFrom(Start, before, spq, transpose).Success? {
      var s := RunFrom(Start, before, spq, transpose).value;
      var f := FlushTie(s, spq, transpose);
      var e := Emit(f, p, q, spq, transpose);
      assert RunFrom(Start, mid, spq, transpose) == Success(e);
      FlushedClock(before, spq, transpose);
      EmittedAt(f, p, q, spq, transpose);
      EventKept(e, |f.events|, after, spq, transpose);
    }
  }

  /** After any elements and a flush, the clock is the summed note and
      rest length in seconds. */
  lemma FlushedClock(before: seq<Element>, secondsPerQuarter: real, transpose: int)
    ensures RunFrom(Start, before, secondsPerQuarter, transpose).Success? ==>
      FlushTie(RunFrom(Start, before, secondsPerQuarter, transpose).value, secondsPerQuarter, transpose).t0Sec
      == Seconds(QuarterLengths(before), secondsPerQuarter)
  {
    RunKeepsClock(Start, before, secondsPerQuarter, transpose, 0.0);
    if RunFrom(Start, before, secondsPerQuarter, transpose).Success? {
      var s := RunFrom(Start, before, secondsPerQuarter, transpose).value;
      assert 0.0 + QuarterLengths(before) == QuarterLengths(before);
      FlushKeepsClock(s, QuarterLengths(before), secondsPerQuarter, transpose);
      ClockInSeconds(FlushTie(s, secondsPerQuarter, transpose), QuarterLengths(before), secondsPerQuarter);
    }
  }

  /** The event an untied note appends: at the clock, its length in seconds. */
  lemma EmittedAt(f: Extraction, p: Pitch, q: real, secondsPerQuarter: real, transpose: int)
    ensures var e := Emit(f, p, q, secondsPerQuarter, transpose);
      |f.events| < |e.events|
      && e.events[|f.events|] == NoteEvent(|f.events|, f.t0Sec, Seconds(q, secondsPerQuarter), q, p.midi,
                                           p.midi + transpose, p.nameWithOctave)
  {
  }

  /** An event already emitted stays, unchanged, through any later elements
      and the final flush. */
  lemma EventKept(e: Extraction, n: nat, after: seq<Element>, secondsPerQuarter: real, transpose: int)
    requires n < |e.events|
    ensures RunFrom(e, after, secondsPerQuarter, transpose).Success? ==>
      var g := FlushTie(RunFrom(e, after, secondsPerQuarter, transpose).value, secondsPerQuarter, transpose);
      n < |g.events| && g.events[n] == e.events[n]
  {
    RunFollows(e, after, secondsPerQuarter, transpose);
    if RunFrom(e, after, secondsPerQuarter, transpose).Success? {
      var u := RunFrom(e, after, secondsPerQuarter, transpose).value;
      FlushFollows(u, secondsPerQuarter, transpose);
      var g := FlushTie(u, secondsPerQuarter, transpose);
      FollowsTransitive(e, u, g);
      assert g.events[..|e.events|][n] == g.events[n];
    }
  }

  lemma NonNegativeParts(a: seq<Element>, b: seq<Element>)
    requires NonNegativeLengths(a + b)
    ensures NonNegativeLengths(a) && NonNegativeLengths(b)
  {
    forall k | 0 <= k < |a| ensures a[k] == (a + b)[k] { }
    forall k | 0 <= k < |b| ensures b[k] == (a + b)[|a| + k] { }
  }

  /** Events that end at least `gap` before the clock stay that far ahead
      of every event appended at or after the clock. */
  lemma GapKept(t: Extraction, g: Extraction, gap: real)
    requires Extends(g, t) && StartsNoEarlier(g, t)
    requires forall j | 0 <= j < |t.events| :: EndSec(t.events[j]) + gap <= t.t0Sec
    ensures forall j, k | 0 <= j < |t.events| <= k < |g.events| ::
      g.events[j].t0Sec + g.events[j].durSec + gap <= g.events[k].t0Sec
  {
    forall j | 0 <= j < |t.events| ensures g.events[j] == t.events[j] {
      assert g.events[..|t.events|][j] == g.events[j];
    }
  }

  /** From a state in order, a rest and then more elements: the events
      after the rest start at least its length after the earlier ones end. */
  lemma RestGapFrom(s: Extraction, r: real, after: seq<Element>, secondsPerQuarter: real, transpose: int)
    requires Chronological(s) && 0.0 <= r && 0.0 < secondsPerQuarter && NonNegativeLengths(after)
    ensures var t := RestAfter(s, r, secondsPerQuarter, transpose);
      RunFrom(t, after, secondsPerQuarter, transpose).Success? ==>
        var g := FlushTie(RunFrom(t, after, secondsPerQuarter, transpose).value, secondsPerQuarter, transpose);
        && |t.events| <= |g.events|
        && forall j, k | 0 <= j < |t.events| <= k < |g.events| ::
             g.events[j].t0Sec + g.events[j].durSec + r * secondsPerQuarter <= g.events[k].t0Sec
  {
    FlushKeepsOrder(s, secondsPerQuarter, transpose);
    var f := FlushTie(s, secondsPerQuarter, transpose);
    EndsByClock(f);
    NonNegativeSeconds(r, secondsPerQuarter);
    var t := RestAfter(s, r, secondsPerQuarter, transpose);
    assert Chronological(t);
    RunFollows(t, after, secondsPerQuarter, transpose);
    if RunFrom(t, after, secondsPerQuarter, transpose).Success? {
      var u := RunFrom(t, after, secondsPerQuarter, transpose).value;
      RunKeepsOrder(t, after, secondsPerQuarter, transpose);
      FlushFollows(u, secondsPerQuarter, transpose);
      var g := FlushTie(u, secondsPerQuarter, transpose);
      FollowsTransitive(t, u, g);
      GapKept(t, g, r * secondsPerQuarter);
    }
  }

  /** The state after a rest: the chain flushed, the clock advanced. */
  function RestAfter(s: Extraction, r: real, secondsPerQuarter: real, transpose: int): (t: Extraction)
    ensures Step(s, Rest(r), secondsPerQuarter, transpose) == Success(t)
  {
    var f := FlushTie(s, secondsPerQuarter, transpose);
    f.(t0Sec := f.t0Sec + Seconds(r, secondsPerQuarter))
  }

  /** A rest separates what comes after it from what came before by its
      length: every event from the elements after the rest starts at least
      the rest's length after every event before it (including a tie chain
      the rest closes) ends. */
  lemma RestOpensGap(before: seq<Element>, r: real, after: seq<Element>, qpm: real, transpose: int)
    requires 0.0 < qpm && NonNegativeLengths(before + [Rest(r)] + after)
    ensures var spq := 60.0 / qpm;
      var x := Extract(before + [Rest(r)] + after, qpm, transpose);
      x.Success? ==>
        && RunFrom(Start, before + [Rest(r)], spq, transpose).Success?
        && var n := |RunFrom(Start, before + [Rest(r)], spq, transpose).value.events|;
           && n <= |x.value.events|
           && forall j, k | 0 <= j < n <= k < |x.value.events| ::
                x.value.events[j].t0Sec + x.value.events[j].durSec + r * spq <= x.value.events[k].t0Sec
  {
    var spq := 60.0 / qpm;
    var mid := before + [Rest(r)];
    NonNegativeParts(mid, after);
    NonNegativeParts(before, [Rest(r)]);
    assert 0.0 <= r by { assert [Rest(r)][0] == Rest(r); }
    assert mid[..|before|] == before;
    RunAppend(Start, mid, after, spq, transpose);
    if RunFrom(Start, before, spq, transpose).Success? {
      var s := RunFrom(Start, before, spq, transpose).value;
      RunKeepsOrder(Start, before, spq, transpose);
      var t := RestAfter(s, r, spq, transpose);
      assert RunFrom(Start, mid, spq, transpose) == Success(t);
      RestGapFrom(s, r, after, spq, transpose);
      if RunFrom(t, after, spq, transpose).Success? {
        var g := FlushTie(RunFrom(t, after, spq, transpose).value, spq, transpose);
        assert Extract(mid + after, qpm, transpose).value.events == g.events;
      }
    }
  }

  /** The pitch a chain held from `s` on `p` is emitted with: the open
      chain's, or `p` when none is open. */
  function ChainPitch(s: Extraction, p: Pitch): (first: Pitch)
    ensures Hold(s, p, 0.0).curTiedPitch == Some(first)
  {
    if s.curTiedPitch.None? then p else s.curTiedPitch.value
  }

  /** A tie chain still open at the end is emitted by the final flush as
      one event at the clock, with the chain's first pitch and its summed
      length: a tie-start note and the tied notes after it, after any
      elements. */
  lemma OpenTieFlushedAtEnd(before: seq<Element>, p: Pitch, q: real, middle: seq<Element>,
                            qpm: real, transpose: int)
    requires qpm != 0.0 && TiedThrough(middle)
    ensures var spq := 60.0 / qpm;
      RunFrom(Start, before, spq, transpose).Success? ==>
        var s := RunFrom(Start, before, spq, transpose).value;
        var chainQl := s.curTiedDurQl + q + QuarterLengths(middle);
        var first := ChainPitch(s, p);
        Extract(before + [Note(p, q, TieStart)] + middle, qpm, transpose)
        == Success(Extracted(s.events + [NoteEvent(|s.events|, s.t0Sec, Seconds(chainQl, spq), chainQl, first.midi,
                                                   first.midi + transpose, first.nameWithOctave)],
                             Meta(qpm, spq, transpose, s.warnings)))
  {
    var spq := 60.0 / qpm;
    var mid := before + [Note(p, q, TieStart)];
    assert mid[..|before|] == before;
    RunAppend(Start, mid, middle, spq, transpose);
    if RunFrom(Start, before, spq, transpose).Success? {
      var s := RunFrom(Start, before, spq, transpose).value;
      var h := Hold(s, p, q);
      assert RunFrom(Start, mid, spq, transpose) == Success(h);
      TiedNotesExtendChain(h, middle, spq, transpose);
      var chainQl := s.curTiedDurQl + q + QuarterLengths(middle);
      var held := h.(curTiedDurQl := h.curTiedDurQl + QuarterLengths(middle));
      assert RunFrom(Start, mid + middle, spq, transpose) == Success(held);
      assert held.curTiedDurQl == chainQl;
      var first := ChainPitch(s, p);
      assert held.curTiedPitch == Some(first);
      assert Seconds(chainQl, spq) == chainQl * spq;
      var f := FlushTie(held, spq, transpose);
      assert f.warnings == s.warnings;
      assert Extract(before + [Note(p, q, TieStart)] + middle, qpm, transpose)
             == Success(Extracted(f.events, Meta(qpm, spq, transpose, f.warnings)));
      var e := NoteEvent(|s.events|, s.t0Sec, chainQl * spq, chainQl, first.midi, first.midi + transpose,
                         first.nameWithOctave);
      assert f.events == s.events + [e];
      assert Extract(before + [Note(p, q, TieStart)] + middle, qpm, transpose)
             == Success(Extracted(s.events + [e], Meta(qpm, spq, transpose, s.warnings)));
    }
  }
}
