/**
 * The MIDI track rendered from the note events: two meta messages, then a
 * note-on and a note-off per event placed at absolute ticks (480 per
 * quarter), stably sorted by tick and re-timed as non-negative deltas.
 * Serialising the file and encoding it as base64 are not modelled.
 */
module MidiTrack {

  import opened ScoreEvents

  /** Ticks per quarter note of the generated file. */
  const TicksPerBeat: int := 480

  /** Velocity of every note-on; note-offs carry velocity 0. */
  const NoteOnVelocity: int := 90

  function Max(a: int, b: int): int {
    if a < b then b else a
  }

  // ---------------------------------------------------------------------
  // Rounding

  /** Python's `round` of a float to an integer: the nearest integer, and
      of two equally near ones the even one. */
  function RoundHalfEven(x: real): (r: int)
    ensures x - 0.5 <= r as real <= x + 0.5
    ensures (r as real - x == 0.5 || x - r as real == 0.5) ==> r % 2 == 0
  {
    var f := x.Floor;
    var d := x - f as real;
    if d < 0.5 then f
    else if 0.5 < d then f + 1
    else if f % 2 == 0 then f
    else f + 1
  }

  /** Those two properties determine the rounding: no other integer has them. */
  lemma RoundHalfEvenUnique(x: real, n: int)
    requires x - 0.5 <= n as real <= x + 0.5
    requires (n as real - x == 0.5 || x - n as real == 0.5) ==> n % 2 == 0
    ensures RoundHalfEven(x) == n
  {
    var r := RoundHalfEven(x);
    assert -1 <= r - n <= 1 by {
      assert (r - n) as real <= 1.0 && -1.0 <= (r - n) as real;
    }
  }

  /** Rounding keeps order. */
  lemma RoundHalfEvenMonotone(x: real, y: real)
    requires x <= y
    ensures RoundHalfEven(x) <= RoundHalfEven(y)
  {
    var a, b := RoundHalfEven(x), RoundHalfEven(y);
    assert b as real - a as real >= -1.0;
  }

  // ---------------------------------------------------------------------
  // Messages

  datatype Kind = NoteOn | NoteOff

  /** A channel message placed at an absolute tick. */
  datatype Timed = Timed(tick: int, kind: Kind, note: int, velocity: int)

  /** A channel message as the track holds it: `time` is the delta from the
      message before. */
  datatype Message = Message(kind: Kind, note: int, velocity: int, time: nat)

  datatype MetaMessage =
    | SetTempo(qpm: real)
    | TimeSignature(numerator: nat, denominator: nat)

  datatype Track = Track(meta: seq<MetaMessage>, messages: seq<Message>)

  /** The event's onset in ticks, converted back from seconds to quarters. */
  function StartTick(e: NoteEvent, qpm: real): int
    requires qpm != 0.0
  {
    RoundHalfEven(e.t0Sec / (60.0 / qpm) * TicksPerBeat as real)
  }

  function DurationTicks(e: NoteEvent): int {
    RoundHalfEven(e.ql * TicksPerBeat as real)
  }

  function NoteOnOf(e: NoteEvent, qpm: real): Timed
    requires qpm != 0.0
  {
    Timed(StartTick(e, qpm), NoteOn, e.midiSounding, NoteOnVelocity)
  }

  /** The note-off lasts at least one tick after the note-on. */
  function NoteOffOf(e: NoteEvent, qpm: real): Timed
    requires qpm != 0.0
  {
    Timed(StartTick(e, qpm) + Max(DurationTicks(e), 1), NoteOff, e.midiSounding, 0)
  }

  /** The absolute-tick list: event by event, its note-on then its note-off. */
  function AbsoluteMessages(events: seq<NoteEvent>, qpm: real): seq<Timed>
    requires qpm != 0.0
    decreases |events|
  {
    if events == [] then []
    else
      var e := events[|events| - 1];
      AbsoluteMessages(events[..|events| - 1], qpm) + [NoteOnOf(e, qpm), NoteOffOf(e, qpm)]
  }

  /** Message 2i is event i's note-on and message 2i+1 its note-off. */
  lemma {:induction false} AbsoluteMessagesPairs(events: seq<NoteEvent>, qpm: real)
    requires qpm != 0.0
    ensures |AbsoluteMessages(events, qpm)| == 2 * |events|
    ensures forall i | 0 <= i < |events| ::
      AbsoluteMessages(events, qpm)[2 * i] == NoteOnOf(events[i], qpm)
      && AbsoluteMessages(events, qpm)[2 * i + 1] == NoteOffOf(events[i], qpm)
    decreases |events|
  {
    if events != [] {
      var init := events[..|events| - 1];
      AbsoluteMessagesPairs(init, qpm);
      var a := AbsoluteMessages(events, qpm);
      var b := AbsoluteMessages(init, qpm);
      forall i | 0 <= i < |events|
        ensures a[2 * i] == NoteOnOf(events[i], qpm) && a[2 * i + 1] == NoteOffOf(events[i], qpm)
      {
        if i < |init| {
          assert events[i] == init[i];
          assert a[2 * i] == b[2 * i] && a[2 * i + 1] == b[2 * i + 1];
        }
      }
    }
  }

  /** An event's note-on and note-off play its written MIDI note transposed;
      the note-off comes at least a tick later, and exactly the event's
      rounded length later when that is a tick or more. */
  lemma NotePair(e: NoteEvent, qpm: real)
    requires qpm != 0.0
    ensures NoteOnOf(e, qpm).kind == NoteOn && NoteOffOf(e, qpm).kind == NoteOff
    ensures NoteOnOf(e, qpm).note == NoteOffOf(e, qpm).note == e.midiSounding
    ensures NoteOnOf(e, qpm).velocity == 90 && NoteOffOf(e, qpm).velocity == 0
    ensures NoteOnOf(e, qpm).tick + 1 <= NoteOffOf(e, qpm).tick
    ensures 1 <= DurationTicks(e) ==> NoteOffOf(e, qpm).tick == NoteOnOf(e, qpm).tick + DurationTicks(e)
    ensures e.t0Sec / (60.0 / qpm) * 480.0 - 0.5 <= NoteOnOf(e, qpm).tick as real <= e.t0Sec / (60.0 / qpm) * 480.0 + 0.5
  {
  }

  /** `_events_to_midi_base64`'s first loop. */
  method BuildAbsoluteMessages(events: seq<NoteEvent>, qpm: real) returns (absMsgs: seq<Timed>)
    requires qpm != 0.0
    ensures absMsgs == AbsoluteMessages(events, qpm)
  {
    absMsgs := [];
    var i := 0;
    while i < |events|
      invariant 0 <= i <= |events|
      invariant absMsgs == AbsoluteMessages(events[..i], qpm)
    {
      var ev := events[i];
      var startQl := ev.t0Sec / (60.0 / qpm);
      var startTick := RoundHalfEven(startQl * TicksPerBeat as real);
      var durTick := RoundHalfEven(ev.ql * TicksPerBeat as real);
      absMsgs := absMsgs + [Timed(startTick, NoteOn, ev.midiSounding, NoteOnVelocity)];
      absMsgs := absMsgs + [Timed(startTick + Max(durTick, 1), NoteOff, ev.midiSounding, 0)];
      assert events[..i + 1][..i] == events[..i];
      i := i + 1;
    }
    assert events[..|events|] == events;
  }

  // ---------------------------------------------------------------------
  // The stable sort by tick

  /** Inserts `x` after every trailing element whose tick is not above its
      own, the step of a stable insertion sort. */
  function InsertByTick(x: Timed, s: seq<Timed>): seq<Timed>
    decreases |s|
  {
    if s == [] || s[|s| - 1].tick <= x.tick then s + [x]
    else InsertByTick(x, s[..|s| - 1]) + [s[|s| - 1]]
  }

  /** The list sorted by tick, equal ticks in their original order. */
  function SortByTick(xs: seq<Timed>): seq<Timed>
    decreases |xs|
  {
    if xs == [] then [] else InsertByTick(xs[|xs| - 1], SortByTick(xs[..|xs| - 1]))
  }

  predicate TicksAscending(s: seq<Timed>) {
    forall i, j | 0 <= i < j < |s| :: s[i].tick <= s[j].tick
  }

  /** The messages at tick `t`, in order. */
  function AtTick(s: seq<Timed>, t: int): seq<Timed>
    decreases |s|
  {
    if s == [] then []
    else AtTick(s[..|s| - 1], t) + (if s[|s| - 1].tick == t then [s[|s| - 1]] else [])
  }

  predicate TicksAtMost(s: seq<Timed>, bound: int) {
    forall i | 0 <= i < |s| :: s[i].tick <= bound
  }

  lemma AppendKeepsAscending(s: seq<Timed>, y: Timed)
    requires TicksAscending(s) && TicksAtMost(s, y.tick)
    ensures TicksAscending(s + [y])
  {
  }

  lemma {:induction false} InsertKeepsBound(x: Timed, s: seq<Timed>, bound: int)
    requires TicksAtMost(s, bound) && x.tick <= bound
    ensures TicksAtMost(InsertByTick(x, s), bound)
    decreases |s|
  {
    if s != [] && x.tick < s[|s| - 1].tick {
      InsertKeepsBound(x, s[..|s| - 1], bound);
    }
  }

  lemma {:induction false} InsertKeepsAscending(x: Timed, s: seq<Timed>)
    requires TicksAscending(s)
    ensures TicksAscending(InsertByTick(x, s))
    decreases |s|
  {
    if s == [] || s[|s| - 1].tick <= x.tick {
      assert TicksAtMost(s, x.tick) by {
        forall i | 0 <= i < |s| ensures s[i].tick <= x.tick {
          assert s[i].tick <= s[|s| - 1].tick;
        }
      }
      AppendKeepsAscending(s, x);
    } else {
      var init := s[..|s| - 1];
      var last := s[|s| - 1];
      InsertKeepsAscending(x, init);
      assert TicksAtMost(init, last.tick);
      InsertKeepsBound(x, init, last.tick);
      AppendKeepsAscending(InsertByTick(x, init), last);
    }
  }

  lemma {:induction false} InsertAddsOne(x: Timed, s: seq<Timed>)
    ensures multiset(InsertByTick(x, s)) == multiset(s) + multiset{x}
    decreases |s|
  {
    if s != [] && x.tick < s[|s| - 1].tick {
      var init := s[..|s| - 1];
      InsertAddsOne(x, init);
      assert s == init + [s[|s| - 1]];
    }
  }

  lemma {:induction false} AtTickAppend(a: seq<Timed>, b: seq<Timed>, t: int)
    ensures AtTick(a + b, t) == AtTick(a, t) + AtTick(b, t)
    decreases |b|
  {
    if b == [] {
      assert a + b == a;
    } else {
      var init := b[..|b| - 1];
      AtTickAppend(a, init, t);
      assert (a + b)[..|a + b| - 1] == a + init;
    }
  }

  lemma {:induction false} AtTickNone(s: seq<Timed>, t: int)
    requires forall i | 0 <= i < |s| :: s[i].tick != t
    ensures AtTick(s, t) == []
    decreases |s|
  {
    if s != [] {
      AtTickNone(s[..|s| - 1], t);
    }
  }

  /** Insertion changes the messages at a tick only by adding `x` last,
      when it is at that tick. */
  lemma {:induction false} InsertAtTick(x: Timed, s: seq<Timed>, t: int)
    ensures AtTick(InsertByTick(x, s), t) == AtTick(s, t) + (if x.tick == t then [x] else [])
    decreases |s|
  {
    if s == [] || s[|s| - 1].tick <= x.tick {
      assert (s + [x])[..|s|] == s;
    } else {
      var init := s[..|s| - 1];
      var last := s[|s| - 1];
      InsertAtTick(x, init, t);
      var r := InsertByTick(x, init);
      assert (r + [last])[..|r|] == r;
    }
  }

  /** The sort orders by tick. */
  lemma {:induction false} SortByTickAscending(xs: seq<Timed>)
    ensures TicksAscending(SortByTick(xs))
    decreases |xs|
  {
    if xs != [] {
      SortByTickAscending(xs[..|xs| - 1]);
      InsertKeepsAscending(xs[|xs| - 1], SortByTick(xs[..|xs| - 1]));
    }
  }

  /** The sort only reorders. */
  lemma {:induction false} SortByTickPermutes(xs: seq<Timed>)
    ensures multiset(SortByTick(xs)) == multiset(xs)
    ensures |SortByTick(xs)| == |xs|
    decreases |xs|
  {
    if xs != [] {
      var init := xs[..|xs| - 1];
      SortByTickPermutes(init);
      InsertAddsOne(xs[|xs| - 1], SortByTick(init));
      assert xs == init + [xs[|xs| - 1]];
      assert |multiset(SortByTick(xs))| == |SortByTick(xs)|;
    }
  }

  /** The sort is stable: the messages at each tick keep their order. */
  lemma {:induction false} SortByTickStable(xs: seq<Timed>, t: int)
    ensures AtTick(SortByTick(xs), t) == AtTick(xs, t)
    decreases |xs|
  {
    if xs != [] {
      var init := xs[..|xs| - 1];
      SortByTickStable(init, t);
      InsertAtTick(xs[|xs| - 1], SortByTick(init), t);
    }
  }

  // ---------------------------------------------------------------------
  // Deltas

  /** The delta of message k: its tick less the tick before it (0 before
      the first), never negative. */
  function Delta(s: seq<Timed>, k: nat): nat
    requires k < |s|
  {
    var last := if k == 0 then 0 else s[k - 1].tick;
    Max(0, s[k].tick - last)
  }

  function WithDeltas(s: seq<Timed>): (r: seq<Message>)
    ensures |r| == |s|
  {
    seq(|s|, k requires 0 <= k < |s| => Message(s[k].kind, s[k].note, s[k].velocity, Delta(s, k)))
  }

  /** `_events_to_midi_base64`'s second loop: each message timed by its
      delta from the message before. */
  method AssignDeltas(sorted: seq<Timed>) returns (msgs: seq<Message>)
    ensures msgs == WithDeltas(sorted)
  {
    msgs := [];
    var lastTick := 0;
    for i := 0 to |sorted|
      invariant msgs == WithDeltas(sorted)[..i]
      invariant lastTick == if i == 0 then 0 else sorted[i - 1].tick
    {
      var delta := Max(0, sorted[i].tick - lastTick);
      msgs := msgs + [Message(sorted[i].kind, sorted[i].note, sorted[i].velocity, delta)];
      lastTick := sorted[i].tick;
    }
  }

  /** The tick a player reaches by adding up the deltas. */
  function Elapsed(msgs: seq<Message>): int
    decreases |msgs|
  {
    if msgs == [] then 0 else Elapsed(msgs[..|msgs| - 1]) + msgs[|msgs| - 1].time
  }

  /** Over ascending, non-negative ticks the deltas add back up to each
      message's absolute tick, so the delta encoding loses nothing. */
  lemma {:induction false} DeltasReproduceTicks(s: seq<Timed>, k: nat)
    requires TicksAscending(s) && k < |s| && 0 <= s[0].tick
    ensures Elapsed(WithDeltas(s)[..k + 1]) == s[k].tick
  {
    var d := WithDeltas(s);
    if k == 0 {
      assert d[..1][..0] == [];
    } else {
      DeltasReproduceTicks(s, k - 1);
      assert d[..k + 1][..k] == d[..k];
    }
  }

  // ---------------------------------------------------------------------
  // The track

  /** The track `_events_to_midi_base64` writes. */
  function MidiTrackOf(events: seq<NoteEvent>, qpm: real): Track
    requires qpm != 0.0
  {
    Track([SetTempo(qpm), TimeSignature(4, 4)], WithDeltas(SortByTick(AbsoluteMessages(events, qpm))))
  }

  method EventsToMidiTrack(events: seq<NoteEvent>, qpm: real) returns (track: Track)
    requires qpm != 0.0
    ensures track == MidiTrackOf(events, qpm)
  {
    var meta := [SetTempo(qpm), TimeSignature(4, 4)];
    var absMsgs := BuildAbsoluteMessages(events, qpm);
    var sorted := SortByTick(absMsgs);
    var msgs := AssignDeltas(sorted);
    track := Track(meta, msgs);
  }

  lemma NonNegativeStartTick(e: NoteEvent, qpm: real)
    requires 0.0 < qpm && 0.0 <= e.t0Sec
    ensures 0 <= StartTick(e, qpm)
  {
    var spq := 60.0 / qpm;
    assert 0.0 < spq;
    assert 0.0 <= e.t0Sec / spq;
    assert 0.0 <= e.t0Sec / spq * TicksPerBeat as real;
  }

  /** Events starting at non-negative times put every message at a
      non-negative tick. */
  lemma {:induction false} NonNegativeTicks(events: seq<NoteEvent>, qpm: real)
    requires 0.0 < qpm
    requires forall i | 0 <= i < |events| :: 0.0 <= events[i].t0Sec
    ensures forall j | 0 <= j < |AbsoluteMessages(events, qpm)| :: 0 <= AbsoluteMessages(events, qpm)[j].tick
    decreases |events|
  {
    if events != [] {
      var init := events[..|events| - 1];
      NonNegativeTicks(init, qpm);
      NonNegativeStartTick(events[|events| - 1], qpm);
    }
  }

  /** Events that start at non-negative times give a track holding each
      event's note-on and note-off, in tick order with ties in list order,
      whose deltas add up to every message's absolute tick. */
  lemma TrackSchedule(events: seq<NoteEvent>, qpm: real)
    requires 0.0 < qpm
    requires forall i | 0 <= i < |events| :: 0.0 <= events[i].t0Sec
    ensures var a := AbsoluteMessages(events, qpm);
      var sorted := SortByTick(a);
      var track := MidiTrackOf(events, qpm);
      && track.meta == [SetTempo(qpm), TimeSignature(4, 4)]
      && |track.messages| == 2 * |events|
      && multiset(sorted) == multiset(a)
      && (forall i | 0 <= i < |events| ::
            NoteOnOf(events[i], qpm) in multiset(sorted) && NoteOffOf(events[i], qpm) in multiset(sorted))
      && TicksAscending(sorted)
      && (forall t :: AtTick(sorted, t) == AtTick(a, t))
      && (forall k | 0 <= k < |sorted| :: Elapsed(track.messages[..k + 1]) == sorted[k].tick)
  {
    var a := AbsoluteMessages(events, qpm);
    var sorted := SortByTick(a);
    AbsoluteMessagesPairs(events, qpm);
    SortByTickPermutes(a);
    SortByTickAscending(a);
    forall t ensures AtTick(sorted, t) == AtTick(a, t) {
      SortByTickStable(a, t);
    }
    forall i | 0 <= i < |events|
      ensures NoteOnOf(events[i], qpm) in multiset(sorted) && NoteOffOf(events[i], qpm) in multiset(sorted)
    {
      assert a[2 * i] in multiset(a) && a[2 * i + 1] in multiset(a);
    }
    if sorted != [] {
      NonNegativeTicks(events, qpm);
      assert sorted[0] in multiset(a);
      forall k | 0 <= k < |sorted| ensures Elapsed(WithDeltas(sorted)[..k + 1]) == sorted[k].tick {
        DeltasReproduceTicks(sorted, k);
      }
    }
  }

  /** Events in time order have their note-ons in tick order. */
  lemma NoteOnsFollowEvents(e1: NoteEvent, e2: NoteEvent, qpm: real)
    requires 0.0 < qpm && e1.t0Sec <= e2.t0Sec
    ensures StartTick(e1, qpm) <= StartTick(e2, qpm)
  {
    var spq := 60.0 / qpm;
    assert 0.0 < spq;
    assert e1.t0Sec / spq <= e2.t0Sec / spq;
    assert e1.t0Sec / spq * TicksPerBeat as real <= e2.t0Sec / spq * TicksPerBeat as real;
    RoundHalfEvenMonotone(e1.t0Sec / spq * TicksPerBeat as real, e2.t0Sec / spq * TicksPerBeat as real);
  }
}
