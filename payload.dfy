/**
 * The payload the backend returns for a score: the extracted events and
 * their metadata, one fingering per event, the rendered MIDI track, and a
 * warning listing the written notes the fingering table does not cover.
 * Parsing the MusicXML bytes and picking the part are not modelled: the
 * score arrives as its metronome marks and the flattened elements of the
 * chosen part.
 */
module Payload {

  import opened Wrappers
  import opened ScoreEvents
  import opened MidiTrack
  import FingeringAlto

  /** An alto saxophone sounds a major sixth (9 semitones) below written. */
  const AltoSaxTranspose: int := -9

  /** The fingering shown for one event: every key of the table, pressed
      or not. */
  datatype FingeringEntry = FingeringEntry(eventIndex: int, keyStates: map<string, bool>)

  datatype ScorePayload = ScorePayload(
    metadata: Meta,
    events: seq<NoteEvent>,
    fingerings: seq<FingeringEntry>,
    midi: Track)

  function FingeringEntryOf(e: NoteEvent): FingeringEntry {
    FingeringEntry(e.idx, FingeringAlto.KeyStatesToDict(FingeringAlto.FingeringForWrittenMidi(e.midiWritten)))
  }

  /** The fingerings, event by event. */
  function FingeringsOf(events: seq<NoteEvent>): seq<FingeringEntry>
    decreases |events|
  {
    if events == [] then []
    else FingeringsOf(events[..|events| - 1]) + [FingeringEntryOf(events[|events| - 1])]
  }

  /** The written notes without a fingering, in event order, repeats kept. */
  function UnsupportedOf(events: seq<NoteEvent>): seq<int>
    decreases |events|
  {
    if events == [] then []
    else
      var e := events[|events| - 1];
      UnsupportedOf(events[..|events| - 1])
        + (if FingeringAlto.IsSupportedWrittenMidi(e.midiWritten) then [] else [e.midiWritten])
  }

  /** The loop of `parse_musicxml_to_payload` over the events. */
  method BuildFingerings(events: seq<NoteEvent>) returns (fingerings: seq<FingeringEntry>, unsupported: seq<int>)
    ensures fingerings == FingeringsOf(events)
    ensures unsupported == UnsupportedOf(events)
  {
    fingerings := [];
    unsupported := [];
    for i := 0 to |events|
      invariant fingerings == FingeringsOf(events[..i])
      invariant unsupported == UnsupportedOf(events[..i])
    {
      assert events[..i + 1][..i] == events[..i];
      var ev := events[i];
      var fing := FingeringAlto.FingeringForWrittenMidi(ev.midiWritten);
      fingerings := fingerings + [FingeringEntry(ev.idx, FingeringAlto.KeyStatesToDict(fing))];
      if !FingeringAlto.IsSupportedWrittenMidi(ev.midiWritten) {
        unsupported := unsupported + [ev.midiWritten];
      }
    }
    assert events[..|events|] == events;
  }

  // ---------------------------------------------------------------------
  // sorted(set(...))

  predicate StrictlyIncreasing(s: seq<int>) {
    forall i, j | 0 <= i < j < |s| :: s[i] < s[j]
  }

  /** Adds `x` to a strictly increasing list unless it is there already. */
  function InsertUnique(x: int, s: seq<int>): (r: seq<int>)
    requires StrictlyIncreasing(s)
    ensures StrictlyIncreasing(r)
    ensures forall y :: y in r <==> y in s || y == x
    decreases |s|
  {
    if s == [] || s[|s| - 1] < x then s + [x]
    else if s[|s| - 1] == x then s
    else
      var last := s[|s| - 1];
      var r := InsertUnique(x, s[..|s| - 1]);
      assert forall i | 0 <= i < |r| :: r[i] < last by {
        forall i | 0 <= i < |r| ensures r[i] < last {
          assert r[i] in r;
          if r[i] != x {
            var k :| 0 <= k < |s| - 1 && s[..|s| - 1][k] == r[i];
            assert s[k] < last;
          }
        }
      }
      r + [last]
  }

  /** The distinct values of the list in ascending order. */
  function SortedUnique(xs: seq<int>): (r: seq<int>)
    ensures StrictlyIncreasing(r)
    ensures forall y :: y in r <==> y in xs
    decreases |xs|
  {
    if xs == [] then []
    else InsertUnique(xs[|xs| - 1], SortedUnique(xs[..|xs| - 1]))
  }

  /** Only one list is strictly increasing with given elements, so
      `SortedUnique` is `sorted(set(xs))` whatever the order of `xs`. */
  lemma {:induction false} StrictlyIncreasingUnique(a: seq<int>, b: seq<int>)
    requires StrictlyIncreasing(a) && StrictlyIncreasing(b)
    requires forall y :: y in a <==> y in b
    ensures a == b
    decreases |a|
  {
    if a != [] && b != [] {
      var la, lb := a[|a| - 1], b[|b| - 1];
      var ia, ib := a[..|a| - 1], b[..|b| - 1];
      LastIsMaximum(a);
      LastIsMaximum(b);
      assert la in a && lb in b;
      assert la == lb;
      forall y ensures y in ia <==> y in ib {
        assert y in ia <==> y in a && y < la;
        assert y in ib <==> y in b && y < lb;
      }
      StrictlyIncreasingUnique(ia, ib);
      assert a == ia + [la] && b == ib + [lb];
    } else if a != [] {
      LastIsElement(a);
      assert false;
    } else if b != [] {
      LastIsElement(b);
      assert false;
    }
  }

  /** The last entry of a strictly increasing list is its largest, and the
      entries before it are exactly the smaller ones. */
  lemma LastIsMaximum(a: seq<int>)
    requires StrictlyIncreasing(a) && a != []
    ensures StrictlyIncreasing(a[..|a| - 1])
    ensures forall y :: y in a ==> y <= a[|a| - 1]
    ensures forall y :: y in a[..|a| - 1] <==> y in a && y < a[|a| - 1]
  {
    var ia := a[..|a| - 1];
    assert a == ia + [a[|a| - 1]];
    forall y | y in a ensures y <= a[|a| - 1] {
      var j :| 0 <= j < |a| && a[j] == y;
    }
    forall y | y in ia ensures y < a[|a| - 1] {
      var j :| 0 <= j < |ia| && ia[j] == y;
      assert a[j] == y;
    }
  }

  lemma LastIsElement(s: seq<int>)
    requires s != []
    ensures s[|s| - 1] in s
  {
  }

  /** The warning `parse_musicxml_to_payload` appends, if any. */
  function UnsupportedWarning(unsupported: seq<int>): seq<Warning> {
    if unsupported == [] then [] else [UnsupportedWrittenNotes(SortedUnique(unsupported))]
  }

  // ---------------------------------------------------------------------
  // The payload

  /** The payload for a score given by its metronome marks and the
      elements of its chosen part; an empty chord fails the whole parse. */
  function PayloadOf(marks: seq<Option<real>>, elements: seq<Element>): Result<ScorePayload, ParseError> {
    var qpm := FirstTempo(marks);
    match Extract(elements, qpm, AltoSaxTranspose)
    case Failure(e) => Failure(e)
    case Success(x) =>
      var warnings := x.meta.warnings + UnsupportedWarning(UnsupportedOf(x.events));
      Success(ScorePayload(x.meta.(warnings := warnings), x.events, FingeringsOf(x.events),
                           MidiTrackOf(x.events, qpm)))
  }

  /** `parse_musicxml_to_payload` after the score is parsed. */
  method ParseMusicXmlToPayload(marks: seq<Option<real>>, elements: seq<Element>)
    returns (r: Result<ScorePayload, ParseError>)
    ensures r == PayloadOf(marks, elements)
  {
    var qpm := FirstTempoQpm(marks);
    var transposeSemitonesSounding := AltoSaxTranspose;
    var extracted := ExtractMonophonicEvents(elements, qpm, transposeSemitonesSounding);
    if extracted.Failure? {
      return Failure(extracted.error);
    }
    var events, meta := extracted.value.events, extracted.value.meta;
    var midi := EventsToMidiTrack(events, qpm);
    var fingerings, unsupported := BuildFingerings(events);
    if unsupported != [] {
      var unique := SortedUnique(unsupported);
      meta := meta.(warnings := meta.warnings + [UnsupportedWrittenNotes(unique)]);
    }
    r := Success(ScorePayload(meta, events, fingerings, midi));
    assert Extract(elements, qpm, AltoSaxTranspose) == extracted;
    assert meta.warnings == extracted.value.meta.warnings + UnsupportedWarning(unsupported);
  }

  // ---------------------------------------------------------------------
  // Properties of the payload

  /** Entry i belongs to event i. */
  lemma {:induction false} FingeringsFollowEvents(events: seq<NoteEvent>)
    ensures |FingeringsOf(events)| == |events|
    ensures forall i | 0 <= i < |events| :: FingeringsOf(events)[i] == FingeringEntryOf(events[i])
    decreases |events|
  {
    if events != [] {
      FingeringsFollowEvents(events[..|events| - 1]);
    }
  }

  /** Exactly the written notes outside the table are listed. */
  lemma {:induction false} UnsupportedListed(events: seq<NoteEvent>)
    ensures forall m :: m in UnsupportedOf(events) <==>
      exists i | 0 <= i < |events| :: events[i].midiWritten == m && !FingeringAlto.IsSupportedWrittenMidi(m)
    decreases |events|
  {
    if events != [] {
      var init := events[..|events| - 1];
      UnsupportedListed(init);
      forall m ensures m in UnsupportedOf(events) <==>
        exists i | 0 <= i < |events| :: events[i].midiWritten == m && !FingeringAlto.IsSupportedWrittenMidi(m)
      {
        if exists i | 0 <= i < |events| :: events[i].midiWritten == m && !FingeringAlto.IsSupportedWrittenMidi(m) {
          var i :| 0 <= i < |events| && events[i].midiWritten == m && !FingeringAlto.IsSupportedWrittenMidi(m);
          if i < |init| {
            assert init[i] == events[i];
          }
        }
        if m in UnsupportedOf(init) {
          var i :| 0 <= i < |init| && init[i].midiWritten == m && !FingeringAlto.IsSupportedWrittenMidi(m);
          assert events[i] == init[i];
        }
      }
    }
  }

  /** A successful payload carries the extracted events and the MIDI
      track rendered from them at the first tempo; its metadata records that
      tempo and the alto transposition, and every event sounds 9 semitones
      below written. */
  lemma PayloadEventsAndMidi(marks: seq<Option<real>>, elements: seq<Element>)
    ensures PayloadOf(marks, elements).Success? ==>
      var p := PayloadOf(marks, elements).value;
      && Extract(elements, FirstTempo(marks), AltoSaxTranspose).Success?
      && p.events == Extract(elements, FirstTempo(marks), AltoSaxTranspose).value.events
      && p.metadata.qpm == FirstTempo(marks)
      && p.metadata.secondsPerQuarter == 60.0 / FirstTempo(marks)
      && p.metadata.transposeSemitonesSounding == -9
      && (forall i | 0 <= i < |p.events| :: p.events[i].idx == i && p.events[i].midiSounding == p.events[i].midiWritten - 9)
      && p.midi == MidiTrackOf(p.events, FirstTempo(marks))
  {
    ExtractedEventsNumbered(elements, FirstTempo(marks), AltoSaxTranspose);
  }

  /** Fingering i is event i's, numbered i, with a state for every key of
      the table, pressed exactly when the table presses it. */
  lemma PayloadFingerings(marks: seq<Option<real>>, elements: seq<Element>)
    ensures PayloadOf(marks, elements).Success? ==>
      var p := PayloadOf(marks, elements).value;
      && |p.fingerings| == |p.events|
      && forall i | 0 <= i < |p.events| ::
           && p.fingerings[i].eventIndex == i
           && forall k: FingeringAlto.KeyId ::
                && FingeringAlto.KeyValue(k) in p.fingerings[i].keyStates
                && (p.fingerings[i].keyStates[FingeringAlto.KeyValue(k)]
                    <==> k in FingeringAlto.FingeringForWrittenMidi(p.events[i].midiWritten).pressed)
  {
    if PayloadOf(marks, elements).Success? {
      var p := PayloadOf(marks, elements).value;
      PayloadEventsAndMidi(marks, elements);
      FingeringsFollowEvents(p.events);
    }
  }

  /** The warning about unsupported notes is absent exactly when the table
      has every written note (those in 58..89, by `SupportedRange`), and
      otherwise lists the notes it lacks once each in ascending order. */
  lemma UnsupportedWarningContents(events: seq<NoteEvent>)
    ensures (forall i | 0 <= i < |events| :: FingeringAlto.IsSupportedWrittenMidi(events[i].midiWritten))
            <==> UnsupportedWarning(UnsupportedOf(events)) == []
    ensures !(forall i | 0 <= i < |events| :: FingeringAlto.IsSupportedWrittenMidi(events[i].midiWritten)) ==>
      exists unique ::
        && UnsupportedWarning(UnsupportedOf(events)) == [UnsupportedWrittenNotes(unique)]
        && StrictlyIncreasing(unique)
        && forall m :: m in unique <==>
             exists i | 0 <= i < |events| :: events[i].midiWritten == m && !FingeringAlto.IsSupportedWrittenMidi(m)
  {
    UnsupportedListed(events);
    var unsupported := UnsupportedOf(events);
    if forall i | 0 <= i < |events| :: FingeringAlto.IsSupportedWrittenMidi(events[i].midiWritten) {
      if unsupported != [] {
        LastIsElement(unsupported);
        assert false;
      }
    } else {
      var i :| 0 <= i < |events| && !(FingeringAlto.IsSupportedWrittenMidi(events[i].midiWritten));
      assert events[i].midiWritten in unsupported;
      var unique := SortedUnique(unsupported);
      assert UnsupportedWarning(unsupported) == [UnsupportedWrittenNotes(unique)];
      assert forall m :: m in unique <==> m in unsupported;
    }
  }

  /** The warnings are the extraction's, followed by the warning about
      unsupported notes, if any. */
  lemma PayloadWarnings(marks: seq<Option<real>>, elements: seq<Element>)
    ensures PayloadOf(marks, elements).Success? ==>
      var p := PayloadOf(marks, elements).value;
      var before := Extract(elements, FirstTempo(marks), AltoSaxTranspose).value.meta.warnings;
      && ((forall i | 0 <= i < |p.events| :: FingeringAlto.IsSupportedWrittenMidi(p.events[i].midiWritten)) <==> p.metadata.warnings == before)
      && (!(forall i | 0 <= i < |p.events| :: FingeringAlto.IsSupportedWrittenMidi(p.events[i].midiWritten)) ==>
            exists unique ::
              && p.metadata.warnings == before + [UnsupportedWrittenNotes(unique)]
              && StrictlyIncreasing(unique)
              && forall m :: m in unique <==>
                   exists i | 0 <= i < |p.events| :: p.events[i].midiWritten == m && !FingeringAlto.IsSupportedWrittenMidi(m))
  {
    if PayloadOf(marks, elements).Success? {
      var p := PayloadOf(marks, elements).value;
      var x := Extract(elements, FirstTempo(marks), AltoSaxTranspose).value;
      assert p.events == x.events;
      var w := UnsupportedWarning(UnsupportedOf(p.events));
      assert p.metadata.warnings == x.meta.warnings + w;
      UnsupportedWarningContents(p.events);
      assert p.metadata.warnings == x.meta.warnings <==> w == [] by {
        assert |p.metadata.warnings| == |x.meta.warnings| + |w|;
      }
    }
  }

  /** A chord without pitches fails the whole parse, whatever precedes it:
      there is no payload. */
  lemma EmptyChordFails(marks: seq<Option<real>>, before: seq<Element>, after: seq<Element>)
    ensures PayloadOf(marks, before + [Chord([])] + after) == Failure(EmptyChord)
  {
    var qpm := FirstTempo(marks);
    EmptyChordStops(Start, before, after, 60.0 / qpm, AltoSaxTranspose);
    assert Extract(before + [Chord([])] + after, qpm, AltoSaxTranspose) == Failure(EmptyChord);
  }

  /** Without chords the extraction cannot fail. */
  lemma {:induction false} NoChordNoFailure(elements: seq<Element>, secondsPerQuarter: real)
    requires forall k | 0 <= k < |elements| :: !elements[k].Chord?
    ensures RunFrom(Start, elements, secondsPerQuarter, AltoSaxTranspose).Success?
    decreases |elements|
  {
    if elements != [] {
      NoChordNoFailure(elements[..|elements| - 1], secondsPerQuarter);
    }
  }
}
