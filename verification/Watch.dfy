/** The watcher's side of the mirror: raw file system events, settled into batches. */
module Watch {
  import opened Path
  import opened Disk
  import opened Mirror

  /** The batch lists each pending path once, with what became of it last. */
  ghost predicate Lists(batch: seq<Event>, pending: map<string, bool>)
  {
    && (forall i | 0 <= i < |batch| :: batch[i].path in pending && pending[batch[i].path] == batch[i].removed)
    && (forall i, j | 0 <= i < j < |batch| :: batch[i].path != batch[j].path)
    && (forall p | p in pending :: Event(p, pending[p]) in batch)
  }

  /** A walk of dir comes to p: nothing from dir down to p is named like a scratch file. */
  predicate Enters(dir: string, p: string)
  {
    && (p == dir || IsBelow(p, dir)) && !IsScratch(p)
    && forall a | a in Ancestors(p) :: a == dir || IsBelow(a, dir) ==> !IsScratch(a)
  }

  /** Neither p nor a directory on the way from dir down to it has a base name with the scratch prefix. */
  ghost predicate Unhidden(dir: string, p: string)
  {
    forall q | q == p || (IsBelow(p, q) && (q == dir || IsBelow(q, dir))) :: !(".dcfs-tmp-" <= Base(q))
  }

  /** A walk of dir comes to what lies in dir, but for scratch-named files and what scratch-named directories hold. */
  lemma EntersExactly(dir: string, p: string)
    ensures Enters(dir, p) <==> (p == dir || IsBelow(p, dir)) && Unhidden(dir, p)
  {
    hide IsBelow, Base, Ancestors;
    forall q ensures q in Ancestors(p) <==> IsBelow(p, q) {
      AncestorsExact(p, q);
    }
  }

  class Watcher {
    const mirror: Mirror
    /** Per path with an unsettled event: was it removed? */
    var pending: map<string, bool>

    constructor (mirror: Mirror)
      ensures this.mirror == mirror && pending == map[]
    {
      this.mirror, pending := mirror, map[];
    }

    /** A later event supersedes an earlier one for the same path; either way the path is claimed. */
    method Record(p: string, removed: bool)
      modifies this`pending, mirror`inflight
      ensures pending == old(pending)[p := removed]
      ensures mirror.inflight == old(mirror.inflight) + {p}
    {
      pending := pending[p := removed];
      mirror.MarkInflight(p);
    }

    /**
     Everything found by a walk of a directory that appeared whole, the directory
     itself included. The walk does not enter scratch-named directories.
     */
    method EnqueueTree(dir: string, found: seq<string>)
      modifies this`pending, mirror`inflight
      ensures var entered := set p | p in found && Enters(dir, p);
              && pending == old(pending) + map p | p in entered :: false
              && mirror.inflight == old(mirror.inflight) + entered
    {
      hide Enters;
      for i := 0 to |found|
        invariant var entered := set p | p in found[..i] && Enters(dir, p);
                  && pending == old(pending) + map p | p in entered :: false
                  && mirror.inflight == old(mirror.inflight) + entered
      {
        assert found[..i + 1] == found[..i] + [found[i]];
        if Enters(dir, found[i]) {
          Record(found[i], false);
        }
      }
      assert found[..|found|] == found;
    }

    /** Hands over all that is pending, each path once, and starts afresh; claims stay. */
    method Flush() returns (batch: seq<Event>)
      modifies this`pending
      ensures Lists(batch, old(pending)) && pending == map[]
    {
      batch := [];
      var left := pending.Keys;
      while left != {}
        invariant left <= pending.Keys && pending == old(pending)
        invariant Lists(batch, map p | p in pending && p !in left :: pending[p])
        decreases |left|
      {
        var p :| p in left;
        ghost var settled := map q | q in pending && q !in left :: pending[q];
        var ev := Event(p, pending[p]);
        ListsOneMore(batch, settled, ev);
        left := left - {p};
        assert (map q | q in pending && q !in left :: pending[q]) == settled[p := pending[p]];
        batch := batch + [ev];
      }
      assert (map p | p in pending && p !in left :: pending[p]) == pending;
      pending := map[];
    }
  }

  lemma ListsOneMore(batch: seq<Event>, pending: map<string, bool>, ev: Event)
    requires Lists(batch, pending) && ev.path !in pending
    ensures Lists(batch + [ev], pending[ev.path := ev.removed])
  {
    var more := batch + [ev];
    assert forall i | 0 <= i < |batch| :: more[i] == batch[i];
    assert more[|batch|] == ev;
    forall p | p in pending ensures Event(p, pending[p]) in more {
      assert Event(p, pending[p]) in batch;
    }
  }
}
