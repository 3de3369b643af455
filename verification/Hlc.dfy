/**
 The hybrid logical clock: timestamps, the total order on versions, and a
 node's clock with its two ways of advancing.
 */
module Hlc {
  import opened Order
  import opened Wrappers

  type int64 = x: int | -0x8000_0000_0000_0000 <= x <= 0x7FFF_FFFF_FFFF_FFFF
  type uint32 = x: int | 0 <= x < 0x1_0000_0000

  const COUNTER_LIMIT := 0x1_0000_0000
  /** Five minutes, in nanoseconds. */
  const MAX_CLOCK_DRIFT := 300_000_000_000

  datatype Timestamp = Timestamp(wall: int64, counter: uint32)

  datatype Version = Version(hlc: Timestamp, origin: string)

  const ZERO_TIMESTAMP := Timestamp(0, 0)

  function Compare(t: Timestamp, o: Timestamp): int
  {
    if t.wall < o.wall then -1
    else if t.wall > o.wall then 1
    else if t.counter < o.counter then -1
    else if t.counter > o.counter then 1
    else 0
  }

  predicate Precedes(t: Timestamp, o: Timestamp)
  {
    Compare(t, o) < 0
  }

  /** Last writer wins: does v beat o? */
  predicate After(v: Version, o: Version)
  {
    var c := Compare(v.hlc, o.hlc);
    if c != 0 then c > 0 else Less(o.origin, v.origin)
  }

  /** v is the same write as o, or beats it. */
  predicate AtLeast(v: Version, o: Version)
  {
    !After(o, v)
  }

  lemma AfterIsTotal(v: Version, o: Version)
    ensures After(v, o) || v == o || After(o, v)
    ensures !(After(v, o) && After(o, v))
    ensures !After(v, v)
    ensures AtLeast(v, o) <==> v == o || After(v, o)
  {
    LessTotal(v.origin, o.origin);
    LessIrreflexive(v.origin);
    LessIrreflexive(o.origin);
    if Less(v.origin, o.origin) {
      LessAsymmetric(v.origin, o.origin);
    }
  }

  /** Last writer wins: the later wall, then the higher counter, then the origin that is later in byte order. */
  lemma LastWriterWins(v: Version, o: Version)
    ensures After(v, o) <==>
            || v.hlc.wall > o.hlc.wall
            || (v.hlc.wall == o.hlc.wall && v.hlc.counter > o.hlc.counter)
            || (v.hlc == o.hlc && ((|o.origin| < |v.origin| && v.origin[..|o.origin|] == o.origin)
                                   || exists i: nat :: SmallerAt(o.origin, v.origin, i)))
  {
    LessIsByteOrder(o.origin, v.origin);
    hide Less;
  }

  lemma AfterIsTransitive(a: Version, b: Version, c: Version)
    requires After(a, b) && After(b, c)
    ensures After(a, c)
  {
    if Compare(a.hlc, b.hlc) == 0 && Compare(b.hlc, c.hlc) == 0 {
      LessTransitive(c.origin, b.origin, a.origin);
    }
  }

  lemma AtLeastIsTransitive(a: Version, b: Version, c: Version)
    requires AtLeast(a, b) && AtLeast(b, c)
    ensures AtLeast(a, c)
    ensures After(a, b) || After(b, c) ==> After(a, c)
  {
    AfterIsTotal(a, b);
    AfterIsTotal(b, c);
    AfterIsTotal(a, c);
    if a != b && b != c {
      AfterIsTransitive(a, b, c);
    }
  }

  /** Go's signed 64-bit subtraction wraps around. */
  function Wrap64(x: int): (r: int64)
    ensures -0x8000_0000_0000_0000 <= x <= 0x7FFF_FFFF_FFFF_FFFF ==> r == x
  {
    (x + 0x8000_0000_0000_0000) % 0x1_0000_0000_0000_0000 - 0x8000_0000_0000_0000
  }

  /** A uint32 counter wraps to zero. */
  function Bump(counter: uint32): uint32
  {
    if counter + 1 == COUNTER_LIMIT then 0 else counter + 1
  }

  /** The reading Clock.Now leaves behind. */
  function Tick(last: Timestamp, physical: int64): Timestamp
  {
    if physical > last.wall then Timestamp(physical, 0)
    else Timestamp(last.wall, Bump(last.counter))
  }

  function Max(a: int, b: int): int
  {
    if a < b then b else a
  }

  /** The reading Clock.Observe leaves behind, or None when it refuses the peer's timestamp. */
  function Merge(last: Timestamp, remote: Timestamp, physical: int64): Option<Timestamp>
  {
    if Wrap64(remote.wall - physical) > MAX_CLOCK_DRIFT then None
    else
      var wall: int64 := Max(physical, Max(last.wall, remote.wall));
      var counter: uint32 :=
        if wall == last.wall && wall == remote.wall then Bump(Max(last.counter, remote.counter))
        else if wall == last.wall then Bump(last.counter)
        else if wall == remote.wall then Bump(remote.counter)
        else 0;
      Some(Timestamp(wall, counter))
  }

  /** Neither counter is at its last value, with k increments still to come. */
  predicate Room(t: Timestamp, k: nat)
  {
    t.counter + k < COUNTER_LIMIT
  }

  /**
   A local reading is strictly later than everything before it, exactly when
   physical time moved on or the counter is not at its last value.
   */
  lemma TickAdvances(last: Timestamp, physical: int64)
    ensures Precedes(last, Tick(last, physical)) <==> physical > last.wall || Room(last, 1)
    ensures Tick(last, physical).counter <= last.counter + 1
  {
  }

  /** Where physical time moved on, a local reading is physical time; where it did not, the wall stands still. */
  lemma TickFollowsTime(last: Timestamp, physical: int64)
    ensures var t := Tick(last, physical);
            && last.wall <= t.wall && physical <= t.wall && t.wall in {last.wall, physical}
            && (physical > last.wall ==> t.counter == 0)
            && (physical <= last.wall && last.counter < 0xFFFF_FFFF ==> t.counter == last.counter + 1)
  {
  }

  /** The counter that Merge increments is not at its last value. */
  predicate MergeRoom(last: Timestamp, remote: Timestamp, physical: int64)
  {
    var wall := Max(physical, Max(last.wall, remote.wall));
    (wall == last.wall ==> Room(last, 1)) && (wall == remote.wall ==> Room(remote, 1))
  }

  /** Observing puts the clock strictly after both inputs, exactly when no counter in play wraps. */
  lemma MergeDominates(last: Timestamp, remote: Timestamp, physical: int64)
    requires Merge(last, remote, physical).Some?
    ensures var t := Merge(last, remote, physical).value;
            && (Precedes(last, t) && Precedes(remote, t) <==> MergeRoom(last, remote, physical))
            && t.counter <= Max(last.counter, remote.counter) + 1
  {
  }

  /**
   The wall of a merged reading is the largest of the three walls. Its counter starts
   again where physical time is ahead of both readings; otherwise it is one more than
   the counter of the reading that is ahead, or than the larger one when they are even.
   */
  lemma MergeFollowsTime(last: Timestamp, remote: Timestamp, physical: int64)
    requires Merge(last, remote, physical).Some?
    ensures var t := Merge(last, remote, physical).value;
            && last.wall <= t.wall && remote.wall <= t.wall && physical <= t.wall
            && t.wall in {last.wall, remote.wall, physical}
            && (last.wall < t.wall && remote.wall < t.wall ==> t.counter == 0)
            && (MergeRoom(last, remote, physical) ==>
                  && (remote.wall < last.wall == t.wall ==> t.counter == last.counter + 1)
                  && (last.wall < remote.wall == t.wall ==> t.counter == remote.counter + 1)
                  && (last.wall == remote.wall == t.wall ==>
                        last.counter < t.counter && remote.counter < t.counter
                        && t.counter in {last.counter + 1, remote.counter + 1}))
  {
  }

  /**
   A remote reading is refused exactly when it is more than five minutes ahead of
   physical time, or so far behind that the 64-bit subtraction wraps around to something
   above that. (Ahead by 2^63 or more, which takes a physical clock before the epoch, it
   wraps the other way and is not refused.)
   */
  lemma DriftIsRefused(last: Timestamp, remote: Timestamp, physical: int64)
    ensures Merge(last, remote, physical).None? <==>
            300_000_000_000 < remote.wall - physical < 0x8000_0000_0000_0000 ||
            300_000_000_000 - 0x1_0000_0000_0000_0000 < remote.wall - physical < -0x8000_0000_0000_0000
  {
    var d := remote.wall - physical;
    if d < -0x8000_0000_0000_0000 {
      assert (d + 0x8000_0000_0000_0000) % 0x1_0000_0000_0000_0000
          == d + 0x8000_0000_0000_0000 + 0x1_0000_0000_0000_0000;
    } else if d >= 0x8000_0000_0000_0000 {
      assert (d + 0x8000_0000_0000_0000) % 0x1_0000_0000_0000_0000
          == d + 0x8000_0000_0000_0000 - 0x1_0000_0000_0000_0000;
    }
  }

  /**
   Such a wrap: one second into the epoch, a reading from the far end of the past is
   taken for one from the future.
   */
  lemma AncientIsRefused()
    ensures Merge(ZERO_TIMESTAMP, Timestamp(-0x8000_0000_0000_0000, 0), 1_000_000_000).None?
  {
    DriftIsRefused(ZERO_TIMESTAMP, Timestamp(-0x8000_0000_0000_0000, 0), 1_000_000_000);
  }

  datatype ClockEvent = LocalTick(at: int64) | RemoteSeen(remote: Timestamp, at: int64)

  function StepClock(last: Timestamp, e: ClockEvent): Timestamp
  {
    match e
    case LocalTick(at) => Tick(last, at)
    case RemoteSeen(remote, at) =>
      var m := Merge(last, remote, at);
      if m.Some? then m.value else last
  }

  /** The clock after the first n events of a run. */
  function RunClock(last: Timestamp, events: seq<ClockEvent>, n: nat): Timestamp
    requires n <= |events|
  {
    if n == 0 then last else StepClock(RunClock(last, events, n - 1), events[n - 1])
  }

  function LargestReading(start: int, events: seq<ClockEvent>, n: nat): int
    requires n <= |events|
  {
    if n == 0 then start else Max(LargestReading(start, events, n - 1), events[n - 1].at)
  }

  /**
   Drift bound: whatever timestamps peers send, accepted or refused, the clock
   never leads the largest physical reading so far by more than the drift limit.
   */
  lemma {:induction false} DriftBound(last: Timestamp, events: seq<ClockEvent>, n: nat, start: int)
    requires n <= |events|
    requires forall i | 0 <= i < |events| :: events[i].at >= 0
    requires last.wall <= start + MAX_CLOCK_DRIFT
    ensures RunClock(last, events, n).wall <= LargestReading(start, events, n) + MAX_CLOCK_DRIFT
  {
    if n > 0 {
      DriftBound(last, events, n - 1, start);
      var e := events[n - 1];
      if e.RemoteSeen? {
        DriftIsRefused(RunClock(last, events, n - 1), e.remote, e.at);
      }
    }
  }

  /** Event i moves the clock: it is local, or a remote reading that is not refused. */
  predicate Counts(last: Timestamp, events: seq<ClockEvent>, i: nat)
    requires i < |events|
  {
    events[i].RemoteSeen? ==> Merge(RunClock(last, events, i), events[i].remote, events[i].at).Some?
  }

  /** The wall is that of the start, or one of the first n events brought it. */
  predicate CameFrom(last: Timestamp, events: seq<ClockEvent>, n: nat, wall: int64)
    requires n <= |events|
  {
    || wall == last.wall
    || exists i | 0 <= i < n && Counts(last, events, i) ::
         wall == events[i].at || (events[i].RemoteSeen? && wall == events[i].remote.wall)
  }

  /**
   The clock follows time. After any run of local ticks and remote readings its wall is
   exactly the largest among the start, every physical reading of a tick or of a remote
   reading that was not refused, and the walls of the latter.
   */
  lemma {:induction false} ClockFollowsTime(last: Timestamp, events: seq<ClockEvent>, n: nat)
    requires n <= |events|
    ensures var wall := RunClock(last, events, n).wall;
            && last.wall <= wall && CameFrom(last, events, n, wall)
            && forall i | 0 <= i < n && Counts(last, events, i) ::
                 events[i].at <= wall && (events[i].RemoteSeen? ==> events[i].remote.wall <= wall)
  {
    hide Tick, Merge;
    if n > 0 {
      ClockFollowsTime(last, events, n - 1);
      var before, e := RunClock(last, events, n - 1), events[n - 1];
      TickFollowsTime(before, e.at);
      if e.RemoteSeen? && Merge(before, e.remote, e.at).Some? {
        MergeFollowsTime(before, e.remote, e.at);
      }
    }
  }

  /** A node's clock. Its readings of physical time are arguments. */
  class Clock {
    var last: Timestamp

    constructor ()
      ensures last == ZERO_TIMESTAMP
    {
      last := ZERO_TIMESTAMP;
    }

    method Now(physical: int64) returns (t: Timestamp)
      modifies this
      ensures last == Tick(old(last), physical)
      ensures t == last
      ensures physical > old(last).wall || Room(old(last), 1) ==> Precedes(old(last), t)
      ensures physical <= t.wall && (physical > old(last).wall ==> t == Timestamp(physical, 0))
    {
      if physical > last.wall {
        last := Timestamp(physical, 0);
      } else {
        last := Timestamp(last.wall, Bump(last.counter));
      }
      return last;
    }

    method Observe(remote: Timestamp, physical: int64) returns (t: Option<Timestamp>)
      modifies this
      ensures t == Merge(old(last), remote, physical)
      ensures last == if t.Some? then t.value else old(last)
      ensures t.Some? && MergeRoom(old(last), remote, physical) ==>
              Precedes(old(last), last) && Precedes(remote, last)
    {
      if Wrap64(remote.wall - physical) > MAX_CLOCK_DRIFT {
        return None;
      }
      var wall: int64 := Max(physical, Max(last.wall, remote.wall));
      var counter: uint32 := 0;
      if wall == last.wall && wall == remote.wall {
        counter := Bump(Max(last.counter, remote.counter));
      } else if wall == last.wall {
        counter := Bump(last.counter);
      } else if wall == remote.wall {
        counter := Bump(remote.counter);
      }
      last := Timestamp(wall, counter);
      return Some(last);
    }
  }
}
