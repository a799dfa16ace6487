/**
 * Playback-position helpers of the score view: a play/pause clock and the
 * lookup of the note event sounding at a given time.
 */
module Timeline {

  import opened Wrappers

  /** A note event as the client receives it. */
  datatype NoteEvent = NoteEvent(
    idx: int,
    t0Sec: real,
    durSec: real,
    midiWritten: int,
    midiSounding: int,
    spelling: string)

  /** Play/pause state: while playing, the clock runs from `startedAtPerfMs`
      (a performance-counter reading in milliseconds) on top of `pausedAtSec`. */
  datatype TimelineState = TimelineState(
    isPlaying: bool,
    startedAtPerfMs: Option<real>,
    pausedAtSec: real)

  /** The playback position, in seconds, at performance-counter reading `nowPerfMs`. */
  function CurrentTimeSec(state: TimelineState, nowPerfMs: real): (t: real)
    ensures !state.isPlaying || state.startedAtPerfMs.None? ==> t == state.pausedAtSec
  {
    if !state.isPlaying || state.startedAtPerfMs.None? then state.pausedAtSec
    else state.pausedAtSec + (nowPerfMs - state.startedAtPerfMs.value) / 1000.0
  }

  /** A running clock reads `pausedAtSec` at its start reading and then
      advances by one second per thousand milliseconds; it never runs back. */
  lemma RunningClock(state: TimelineState, now: real, later: real)
    requires state.isPlaying && state.startedAtPerfMs.Some?
    requires now <= later
    ensures CurrentTimeSec(state, state.startedAtPerfMs.value) == state.pausedAtSec
    ensures CurrentTimeSec(state, later) - CurrentTimeSec(state, now) == (later - now) / 1000.0
    ensures CurrentTimeSec(state, now) <= CurrentTimeSec(state, later)
  {
  }

  /** Whether `ev` sounds at time `t`: its interval is half-open. */
  predicate Sounding(ev: NoteEvent, t: real) {
    ev.t0Sec <= t < ev.t0Sec + ev.durSec
  }

  /** The end instant of an event is outside it, and an event of zero or
      negative duration never sounds. */
  lemma HalfOpenInterval(ev: NoteEvent, t: real)
    ensures !Sounding(ev, ev.t0Sec + ev.durSec)
    ensures ev.durSec <= 0.0 ==> !Sounding(ev, t)
  {
  }

  /** The `idx` of the first event in list order that sounds at `tSec`, or
      `None` when no event does. */
  method FindActiveEventIndex(events: seq<NoteEvent>, tSec: real) returns (r: Option<int>)
    ensures r.None? <==> forall i | 0 <= i < |events| :: !Sounding(events[i], tSec)
    ensures r.Some? ==> exists i | 0 <= i < |events| ::
      && Sounding(events[i], tSec)
      && r.value == events[i].idx
      && forall j | 0 <= j < i :: !Sounding(events[j], tSec)
  {
    var i := 0;
    while i < |events|
      invariant 0 <= i <= |events|
      invariant forall j | 0 <= j < i :: !Sounding(events[j], tSec)
    {
      var ev := events[i];
      if tSec >= ev.t0Sec && tSec < ev.t0Sec + ev.durSec {
        return Some(ev.idx);
      }
      i := i + 1;
    }
    return None;
  }
}
