/**
 Change signals. Every subscriber has a channel of depth one, and a send to a full
 channel is dropped. No wake-up is lost all the same: a subscriber with an empty
 channel that has finished its read has seen every completed commit.
 */
module Notify {
  import opened Store

  /* ----- the subscriber table ----- */

  class Subscribers {
    var next: nat
    /** Per subscriber: is a signal waiting in its channel? */
    var channels: map<nat, bool>

    constructor ()
      ensures Valid() && channels == map[]
    {
      next, channels := 0, map[];
    }

    ghost predicate Valid()
      reads this
    {
      forall id | id in channels :: id < next
    }

    method Subscribe() returns (id: nat)
      requires Valid()
      modifies this
      ensures Valid() && id !in old(channels) && channels == old(channels)[id := false]
    {
      id := next;
      next := next + 1;
      channels := channels[id := false];
    }

    method Unsubscribe(id: nat)
      requires Valid()
      modifies this
      ensures Valid() && channels == old(channels) - {id}
    {
      if id in channels {
        channels := channels - {id};
      }
    }

    /** Wakes every subscriber without waiting for any: a full channel stays as it is. */
    method SignalAll()
      requires Valid()
      modifies this`channels
      ensures Valid() && channels.Keys == old(channels).Keys && forall id | id in channels :: channels[id]
    {
      var todo := channels.Keys;
      while todo != {}
        invariant todo <= channels.Keys == old(channels).Keys
        invariant forall id | id in channels :: channels[id] == (id !in todo || old(channels)[id])
        decreases |todo|
      {
        var id :| id in todo;
        if !channels[id] {
          channels := channels[id := true];
        }
        todo := todo - {id};
      }
    }

    /** The subscriber takes the waiting signal, if there is one. */
    method Receive(id: nat) returns (got: bool)
      requires Valid()
      modifies this`channels
      ensures Valid() && got == (id in old(channels) && old(channels)[id])
      ensures channels == if got then old(channels)[id := false] else old(channels)
    {
      got := id in channels && channels[id];
      if got {
        channels := channels[id := false];
      }
    }
  }

  /* ----- commits and readers, interleaved ----- */

  /** at is the number of the tree the reader has read last. */
  datatype Reader = Reader(signal: bool, mustRead: bool, at: nat)

  /** A commit whose tree is in the store, with the subscribers its notify has still to reach. */
  datatype Commit = Applied(tree: nat) | Notifying(tree: nat, left: set<nat>) | Completed(tree: nat)

  /** trees holds every tree the store has had; the last one is what a read returns. */
  datatype State = State(trees: seq<Rows>, commits: seq<Commit>, readers: map<nat, Reader>)

  datatype Step =
    | ApplyTree(rows: Rows)        // a commit's write reaches the store
    | BeginNotify(c: nat)          // it takes the table's lock
    | Signal(c: nat, id: nat)      // and tries to send to one channel
    | EndNotify(c: nat)
    | Join(id: nat)                // subscribe; the subscriber then reads the tree as it starts
    | Leave(id: nat)
    | Wake(id: nat)                // receive from the channel
    | Read(id: nat)                // read the whole tree

  predicate Enabled(s: State, a: Step)
  {
    match a
    case ApplyTree(_) => true
    case BeginNotify(c) => c < |s.commits| && s.commits[c].Applied?
    case Signal(c, id) => c < |s.commits| && s.commits[c].Notifying? && id in s.commits[c].left
    case EndNotify(c) => c < |s.commits| && s.commits[c].Notifying? && s.commits[c].left == {}
    case Join(id) => id !in s.readers && forall c | 0 <= c < |s.commits| :: !s.commits[c].Notifying?
    case Leave(id) => id in s.readers && forall c | 0 <= c < |s.commits| :: !s.commits[c].Notifying?
    case Wake(id) => id in s.readers && s.readers[id].signal && !s.readers[id].mustRead
    case Read(id) => id in s.readers && s.readers[id].mustRead && s.trees != []
  }

  function Do(s: State, a: Step): State
    requires Enabled(s, a)
  {
    match a
    case ApplyTree(rows) => s.(trees := s.trees + [rows], commits := s.commits + [Applied(|s.trees|)])
    case BeginNotify(c) => s.(commits := s.commits[c := Notifying(s.commits[c].tree, s.readers.Keys)])
    case Signal(c, id) =>
      s.(commits := s.commits[c := Notifying(s.commits[c].tree, s.commits[c].left - {id})],
         readers := if id in s.readers then s.readers[id := s.readers[id].(signal := true)] else s.readers)
    case EndNotify(c) => s.(commits := s.commits[c := Completed(s.commits[c].tree)])
    case Join(id) => s.(readers := s.readers[id := Reader(false, true, 0)])
    case Leave(id) => s.(readers := s.readers - {id})
    case Wake(id) => s.(readers := s.readers[id := s.readers[id].(signal := false, mustRead := true)])
    case Read(id) => s.(readers := s.readers[id := s.readers[id].(mustRead := false, at := |s.trees| - 1)])
  }

  predicate Init(s: State)
  {
    |s.trees| == 1 && s.commits == [] && s.readers == map[]
  }

  predicate Legal(s: State, run: seq<Step>)
    decreases |run|
  {
    run == [] || (Enabled(s, run[0]) && Legal(Do(s, run[0]), run[1..]))
  }

  function Run(s: State, run: seq<Step>): State
    requires Legal(s, run)
    decreases |run|
  {
    if run == [] then s else Run(Do(s, run[0]), run[1..])
  }

  /** Commit c has sent reader id its signal, or found its channel full. */
  predicate Reached(c: Commit, id: nat)
  {
    c.Completed? || (c.Notifying? && id !in c.left)
  }

  /** The reader has seen the commit's tree or a later one, or is bound to read again. */
  predicate UpToDate(r: Reader, c: Commit)
  {
    r.signal || r.mustRead || r.at >= c.tree
  }

  ghost predicate NothingLost(s: State)
  {
    && s.trees != []
    && (forall c | 0 <= c < |s.commits| :: s.commits[c].tree < |s.trees|)
    && (forall id | id in s.readers :: s.readers[id].at < |s.trees|)
    && (forall c, id | 0 <= c < |s.commits| && id in s.readers && Reached(s.commits[c], id) ::
          UpToDate(s.readers[id], s.commits[c]))
  }

  lemma StepLosesNothing(s: State, a: Step)
    requires NothingLost(s) && Enabled(s, a)
    ensures NothingLost(Do(s, a))
  {
    var s' := Do(s, a);
    forall c, id | 0 <= c < |s'.commits| && id in s'.readers && Reached(s'.commits[c], id)
      ensures UpToDate(s'.readers[id], s'.commits[c])
    {
      if c < |s.commits| && id in s.readers && Reached(s.commits[c], id) {
        assert UpToDate(s.readers[id], s.commits[c]);
      }
    }
  }

  lemma {:induction false} RunLosesNothing(s: State, run: seq<Step>)
    requires NothingLost(s) && Legal(s, run)
    ensures NothingLost(Run(s, run))
    decreases |run|
  {
    if run != [] {
      StepLosesNothing(s, run[0]);
      RunLosesNothing(Do(s, run[0]), run[1..]);
    }
  }

  /**
   No lost wake-up. In every interleaving of commits and readers, a subscriber
   whose channel is empty and whose read is finished holds a tree that the store
   had when the last completed commit had been applied, or a later one.
   */
  lemma NoLostWakeUp(s: State, run: seq<Step>, id: nat)
    requires Init(s) && Legal(s, run)
    requires id in Run(s, run).readers
    requires !Run(s, run).readers[id].signal && !Run(s, run).readers[id].mustRead
    ensures var end := Run(s, run);
            && end.readers[id].at < |end.trees|
            && forall c | 0 <= c < |end.commits| && end.commits[c].Completed? ::
                 end.commits[c].tree <= end.readers[id].at
  {
    RunLosesNothing(s, run);
    var end := Run(s, run);
    forall c | 0 <= c < |end.commits| && end.commits[c].Completed? ensures end.commits[c].tree <= end.readers[id].at {
      assert Reached(end.commits[c], id);
      assert UpToDate(end.readers[id], end.commits[c]);
    }
  }
}
