/**
 * Playback scheduling for inbound audio: each decoded payload starts at
 * `max(cursor, deviceTime)` and the cursor then advances by the payload's duration.
 */
module Playback {

  /** A time or a duration on an audio context's clock, in seconds. */
  type Seconds = r: real | r >= 0.0

  /** One scheduled audio source node. `node` stands for the node's object identity. */
  datatype Source = Source(node: nat, start: real, duration: Seconds)

  function End(s: Source): real {
    s.start + s.duration
  }

  function Max(a: real, b: real): (m: real)
    ensures m >= a && m >= b && (m == a || m == b)
  {
    if a >= b then a else b
  }

  /** Start time of a payload that arrives when the device clock reads `now`. */
  function StartAt(cursor: real, now: Seconds): (start: real)
    ensures start >= cursor && start >= now
    ensures start == cursor || start == now
  {
    Max(cursor, now)
  }

  /** One inbound payload: the device time at which it arrived and its decoded duration. */
  datatype Arrival = Arrival(now: Seconds, duration: Seconds)

  /** The interval one payload occupies on the device clock. */
  datatype Slot = Slot(start: real, end: real)

  /** The playbacks scheduled for a run of payloads within one session. */
  function ScheduleAll(cursor: real, arrivals: seq<Arrival>): (slots: seq<Slot>)
    ensures |slots| == |arrivals|
    ensures forall i :: 0 <= i < |slots| ==> slots[i].start >= cursor
    ensures forall i :: 0 <= i < |slots| ==>
              slots[i].start >= arrivals[i].now && slots[i].end == slots[i].start + arrivals[i].duration
    decreases |arrivals|
  {
    if arrivals == [] then []
    else
      var start := StartAt(cursor, arrivals[0].now);
      [Slot(start, start + arrivals[0].duration)] + ScheduleAll(start + arrivals[0].duration, arrivals[1..])
  }

  /** The cursor after a run of payloads. */
  function CursorAfter(cursor: real, arrivals: seq<Arrival>): (c: real)
    ensures c >= cursor
    decreases |arrivals|
  {
    if arrivals == [] then cursor
    else CursorAfter(StartAt(cursor, arrivals[0].now) + arrivals[0].duration, arrivals[1..])
  }

  /** Playback never overlaps: every scheduled payload starts no earlier than each earlier one ends,
      however bursty the arrivals are. */
  lemma {:induction false} ScheduleNeverOverlaps(cursor: real, arrivals: seq<Arrival>, i: nat, j: nat)
    requires i < j < |arrivals|
    ensures ScheduleAll(cursor, arrivals)[i].end <= ScheduleAll(cursor, arrivals)[j].start
    decreases |arrivals|
  {
    var all := ScheduleAll(cursor, arrivals);
    var next := StartAt(cursor, arrivals[0].now) + arrivals[0].duration;
    var rest := ScheduleAll(next, arrivals[1..]);
    assert all[j] == rest[j - 1];
    if i == 0 {
      assert all[0].end == next;
    } else {
      assert all[i] == rest[i - 1];
      ScheduleNeverOverlaps(next, arrivals[1..], i - 1, j - 1);
    }
  }

  /** Every slot ends by the final cursor, so later payloads are queued after all of them. */
  lemma {:induction false} ScheduleEndsByCursor(cursor: real, arrivals: seq<Arrival>, i: nat)
    requires i < |arrivals|
    ensures ScheduleAll(cursor, arrivals)[i].end <= CursorAfter(cursor, arrivals)
    decreases |arrivals|
  {
    var next := StartAt(cursor, arrivals[0].now) + arrivals[0].duration;
    if i > 0 {
      ScheduleEndsByCursor(next, arrivals[1..], i - 1);
    }
  }

  /** The cursor never moves backwards while payloads are scheduled. */
  lemma {:induction false} CursorMonotone(cursor: real, a: seq<Arrival>, b: seq<Arrival>)
    ensures CursorAfter(cursor, a + b) >= CursorAfter(cursor, a)
    decreases |a|
  {
    if a == [] {
      assert a + b == b;
    } else {
      var next := StartAt(cursor, a[0].now) + a[0].duration;
      assert (a + b)[1..] == a[1..] + b;
      assert (a + b)[0] == a[0];
      CursorMonotone(next, a[1..], b);
    }
  }

  /**
   * The playback half of a live session: `nextStartTimeRef` (the cursor) and
   * `audioSourcesRef` (the set of source nodes still scheduled). Nodes are told apart
   * by `node`, a counter standing for object identity; `stopped` records the sources
   * on which `stop()` has been called.
   */
  class PlaybackQueue {
    var nextStartTime: real
    var sources: set<Source>
    var nodesCreated: nat
    var stopped: set<Source>

    /** Every scheduled source ends by the cursor, and no two scheduled sources overlap. */
    ghost predicate Valid()
      reads this
    {
      && nextStartTime >= 0.0
      && (forall s :: s in sources ==> s.node < nodesCreated && End(s) <= nextStartTime)
      && (forall s, t :: s in sources && t in sources && s.node == t.node ==> s == t)
      && (forall s, t :: s in sources && t in sources && s.node < t.node ==> End(s) <= t.start)
    }

    constructor ()
      ensures Valid()
      ensures nextStartTime == 0.0 && sources == {} && nodesCreated == 0 && stopped == {}
    {
      nextStartTime, sources, nodesCreated, stopped := 0.0, {}, 0, {};
    }

    /** Schedule a decoded payload: start at `max(cursor, now)`, then advance the cursor by its duration. */
    method Schedule(now: Seconds, duration: Seconds) returns (s: Source)
      requires Valid()
      modifies this`nextStartTime, this`sources, this`nodesCreated
      ensures Valid()
      ensures s == Source(old(nodesCreated), StartAt(old(nextStartTime), now), duration)
      ensures s.start >= now && s.start >= old(nextStartTime)
      ensures nextStartTime == End(s) >= old(nextStartTime)
      ensures sources == old(sources) + {s} && s !in old(sources)
      ensures nodesCreated == old(nodesCreated) + 1
    {
      nextStartTime := Max(nextStartTime, now);
      s := Source(nodesCreated, nextStartTime, duration);
      nodesCreated := nodesCreated + 1;
      nextStartTime := nextStartTime + duration;
      sources := sources + {s};
    }

    /** The node's 'ended' listener: it leaves the set. */
    method SourceEnded(s: Source)
      requires Valid()
      modifies this`sources
      ensures Valid()
      ensures sources == old(sources) - {s}
    {
      sources := sources - {s};
    }

    /** Barge-in: stop and delete every scheduled source, then zero the cursor. */
    method Interrupt()
      requires Valid()
      modifies this`sources, this`stopped, this`nextStartTime
      ensures Valid()
      ensures sources == {} && nextStartTime == 0.0
      ensures stopped == old(stopped) + old(sources)
    {
      while sources != {}
        invariant sources <= old(sources)
        invariant stopped + sources == old(stopped) + old(sources)
        decreases |sources|
      {
        var s :| s in sources;
        stopped := stopped + {s};
        sources := sources - {s};
      }
      nextStartTime := 0.0;
    }

    /** Full teardown: stop every scheduled source, clear the set, then zero the cursor. */
    method Reset()
      requires Valid()
      modifies this`sources, this`stopped, this`nextStartTime
      ensures Valid()
      ensures sources == {} && nextStartTime == 0.0
      ensures stopped == old(stopped) + old(sources)
    {
      stopped := stopped + sources;
      sources := {};
      nextStartTime := 0.0;
    }

    /** Teardown: stop every scheduled source, then clear the set. The cursor is left alone. */
    method StopAll()
      requires Valid()
      modifies this`sources, this`stopped
      ensures Valid()
      ensures sources == {} && stopped == old(stopped) + old(sources)
    {
      stopped := stopped + sources;
      sources := {};
    }
  }
}
