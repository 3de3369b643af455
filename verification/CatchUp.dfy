/**
 What a whole clean pull makes up for, path by path: exactly the rows above the
 position it starts reading at. Everything below must have been passed before, and
 once something there has been missed, no number of pulls between the two nodes
 makes up for it.
 */
module CatchUp {
  import opened Hlc
  import opened Path
  import opened Entry
  import opened Store
  import opened Digest
  import opened NodeFacts
  import opened Cluster
  import opened ClusterInvariant
  import opened Bookmarks
  import opened PullSteps

  /** The puller is at or past its peer's row for p. */
  predicate PassedAt(mine: Rows, peer: Rows, p: string)
    requires p in peer
  {
    p in mine && AtLeast(mine[p].version, peer[p].version)
  }

  /** The puller is at or past every row of its peer. */
  ghost predicate Passed(mine: Rows, peer: Rows)
  {
    forall p | p in peer :: PassedAt(mine, peer, p)
  }

  /* ----- one pull ----- */

  /** A whole pull over l, clean throughout, has led from s to c. */
  ghost predicate Pulled(w: World, s: Cluster, c: Cluster, l: Link, quiet: bool)
  {
    Pulling(w, s, c, l, quiet) && l !in c.pulls && WellFormed(s.nodes[l.peer].store)
  }

  lemma PullAchieves(w: World, s: Cluster, l: Link, run: seq<Action>, quiet: bool)
    requires WholePull(w, s, l, run) && Begins(s, l, quiet)
    requires GoodWorld(w) && Inv(w, s)
    ensures var c := Run(w, s, run); Pulled(w, s, c, l, quiet) && Inv(w, c) && c.nodes.Keys == s.nodes.Keys
  {
    hide Legal, CleanPull, Run, GoodWorld, Inv, Begins, Pulling;
    RunPulls(w, s, s, l, run, quiet);
    ShapesAgree(w, s, Run(w, s, run));
    NodeOf(w, s, l.peer);
    FormedOf(s.nodes[l.peer]);
  }

  lemma ShapesAgree(w: World, s: Cluster, c: Cluster)
    requires Inv(w, s) && Inv(w, c)
    ensures c.nodes.Keys == s.nodes.Keys
  {
  }

  lemma LoudBegins(s: Cluster, l: Link)
    requires l.puller in s.nodes && l.peer in s.nodes && l.puller != l.peer
    ensures Begins(s, l, false)
  {
    hide NoConflicts;
  }

  lemma StaysPast(rows: Rows, rows': Rows, peer: Rows, p: string)
    requires Rises(rows, rows') && p in peer && PassedAt(rows, peer, p)
    ensures PassedAt(rows', peer, p)
  {
    if rows'[p] != rows[p] {
      AfterIsTotal(rows'[p].version, rows[p].version);
      AtLeastIsTransitive(rows'[p].version, rows[p].version, peer[p].version);
    }
  }

  lemma PulledParts(w: World, s: Cluster, c: Cluster, l: Link, quiet: bool)
    requires Pulled(w, s, c, l, quiet)
    ensures l.puller in s.nodes && l.peer in s.nodes && l.puller != l.peer && c.nodes.Keys == s.nodes.Keys
    ensures forall n | n in s.nodes && n != l.puller :: c.nodes[n] == s.nodes[n]
    ensures forall n | n != l.peer :: PeerSeq(c.nodes[l.puller].store, n) == PeerSeq(s.nodes[l.puller].store, n)
    ensures Moved(s.nodes[l.puller].store, RowsOf(s, l.peer), Since(s, l), quiet, c.nodes[l.puller].store)
    ensures BookmarkOk(RowsOf(s, l.peer), Since(s, l), PeerSeq(s.nodes[l.puller].store, l.peer),
                       PeerSeq(c.nodes[l.puller].store, l.peer))
    ensures WellFormed(s.nodes[l.peer].store) && (quiet ==> c.hist.writes == s.hist.writes)
  {
    hide Moved, NoConflicts, Since, BookmarkOk, WellFormed, CoveredUpTo, Hidden, Reach;
  }

  /** What is hidden from a pull is what lies at or below where it starts. */
  lemma HiddenIsBelow(peer: Rows, since: int, p: string)
    requires WellFiled(peer) && p in peer && Norm(peer[p]) in Hidden(peer, since)
    ensures peer[p].pos <= since
  {
    var q :| q in peer && peer[q].pos <= since && Norm(peer[q]) == Norm(peer[p]);
    assert Norm(peer[q]).path == Norm(peer[p]).path;
  }

  /** A finished pull has brought the puller to or past every row above where it started. */
  lemma FinishedCovers(w: World, s: Cluster, c: Cluster, l: Link, quiet: bool, p: string)
    requires Pulled(w, s, c, l, quiet) && p in RowsOf(s, l.peer)
    ensures PassedAt(RowsOf(c, l.puller), RowsOf(s, l.peer), p) || RowsOf(s, l.peer)[p].pos <= Since(s, l)
  {
    PeerIsStill(w, s, c, l, quiet);
    hide OnlyPulled, Since, BookmarkOk, Hidden;
    var mine, peer := RowsOf(c, l.puller), s.nodes[l.peer].store;
    assert Covered(mine, Hidden(peer.rows, Since(s, l)), peer.rows[p]);
    if Norm(peer.rows[p]) in Hidden(peer.rows, Since(s, l)) {
      HiddenIsBelow(peer.rows, Since(s, l), p);
    }
  }

  /** At one path: passed after a pull, if above its start or passed before; and only if, where no copy can land. */
  lemma PulledExactly(w: World, s: Cluster, c: Cluster, l: Link, quiet: bool, p: string)
    requires Pulled(w, s, c, l, quiet) && p in RowsOf(s, l.peer)
    ensures var mine, mine', peer := RowsOf(s, l.puller), RowsOf(c, l.puller), RowsOf(s, l.peer);
            && (peer[p].pos > Since(s, l) || PassedAt(mine, peer, p) ==> PassedAt(mine', peer, p))
            && (!IsConflictName(p) && PassedAt(mine', peer, p) ==> peer[p].pos > Since(s, l) || PassedAt(mine, peer, p))
  {
    PulledParts(w, s, c, l, quiet);
    hide Pulled, Since, BookmarkOk, RowsComeFrom, OldFeedKept, IsConflictName, Rises, WellFormed;
    var mine, mine', peer := RowsOf(s, l.puller), RowsOf(c, l.puller), RowsOf(s, l.peer);
    if PassedAt(mine, peer, p) {
      StaysPast(mine, mine', peer, p);
    } else if peer[p].pos > Since(s, l) {
      FinishedCovers(w, s, c, l, quiet, p);
    }
  }

  lemma ReachableIsInv(w: World, c0: Cluster, before: seq<Action>)
    requires GoodWorld(w) && Init(w, c0) && Legal(w, c0, before)
    ensures Inv(w, Run(w, c0, before))
  {
    hide Inv, Legal, Run, GoodWorld, Init;
    InitIsInv(w, c0);
    RunKeepsInv(w, c0, before);
  }

  /**
   What a pull makes up for. Take any reachable state and a whole pull from there that
   defers and rejects nothing. Afterwards the puller is at or past the peer's row for
   a path if the row lies above the position the pull starts reading at, or if the
   puller was at or past it before; and at paths that are no conflict names it is so
   in no other case. It does not matter why a row below was missed: refused for its
   stamp, deferred and passed by a later page, or collected.
   */
  lemma {:induction false} PullCatchesUpExactly(w: World, c0: Cluster, before: seq<Action>, l: Link, run: seq<Action>,
                                                p: string)
    requires GoodWorld(w) && Init(w, c0) && Legal(w, c0, before)
    requires var s := Run(w, c0, before); WholePull(w, s, l, run) && p in RowsOf(s, l.peer)
    ensures var s := Run(w, c0, before);
            var c := Run(w, s, run);
            && c.nodes.Keys == s.nodes.Keys && c.nodes[l.peer] == s.nodes[l.peer]
            && var mine, mine', peer := RowsOf(s, l.puller), RowsOf(c, l.puller), RowsOf(s, l.peer);
               && (peer[p].pos > Since(s, l) || PassedAt(mine, peer, p) ==> PassedAt(mine', peer, p))
               && (!IsConflictName(p) ==>
                     (PassedAt(mine', peer, p) <==> peer[p].pos > Since(s, l) || PassedAt(mine, peer, p)))
  {
    hide Legal, Run, GoodWorld, Init, Inv, Since, Pulled, PassedAt, CleanPull, Begins, IsConflictName;
    ReachableIsInv(w, c0, before);
    var s := Run(w, c0, before);
    LoudBegins(s, l);
    PullAchieves(w, s, l, run, false);
    PulledExactly(w, s, Run(w, s, run), l, false, p);
    PulledParts(w, s, Run(w, s, run), l, false);
  }

  /* ----- nothing missed so far ----- */

  /** Every row the peer holds at or below our bookmark is one we are at or past. */
  ghost predicate CaughtUp(c: Cluster, l: Link)
    requires l.puller in c.nodes && l.peer in c.nodes
  {
    CoveredUpTo(RowsOf(c, l.puller), {}, c.nodes[l.peer].store, PeerSeq(c.nodes[l.puller].store, l.peer))
  }

  /** A pull that finds the puller caught up brings it past everything. */
  lemma CaughtUpPasses(w: World, s: Cluster, c: Cluster, l: Link, quiet: bool)
    requires Pulled(w, s, c, l, quiet) && l.puller in s.nodes && l.peer in s.nodes && CaughtUp(s, l)
    ensures Passed(RowsOf(c, l.puller), RowsOf(s, l.peer))
  {
    var mine, peer := RowsOf(c, l.puller), s.nodes[l.peer].store;
    forall p | p in peer.rows ensures PassedAt(mine, peer.rows, p) {
      hide Pulling, Pulled;
      PulledExactly(w, s, c, l, quiet, p);
      assert peer.rows[p].pos <= Since(s, l) ==> Covered(RowsOf(s, l.puller), {}, peer.rows[p]);
    }
  }

  /** Whatever node one looks at, a pull has only raised its rows and kept its old feed. */
  lemma PulledNode(w: World, s: Cluster, c: Cluster, l: Link, quiet: bool, n: string)
    requires Pulled(w, s, c, l, quiet) && n in s.nodes
    ensures n in c.nodes && Rises(RowsOf(s, n), RowsOf(c, n)) && OldFeedKept(s.nodes[n].store, c.nodes[n].store)
  {
    PulledParts(w, s, c, l, quiet);
    hide Pulled, RowsComeFrom, Untouched, Since, BookmarkOk, Rises, OldFeedKept, WellFormed;
    if n != l.puller {
      StandsStill(RowsOf(s, n), s.nodes[n].store);
    }
  }

  /** A whole clean pull leaves caught up whoever was, itself included. */
  lemma CaughtUpStays(w: World, s: Cluster, c: Cluster, l: Link, quiet: bool, k: Link)
    requires Pulled(w, s, c, l, quiet)
    requires k.puller in s.nodes && k.peer in s.nodes && k.puller != k.peer && CaughtUp(s, k)
    ensures k.puller in c.nodes && k.peer in c.nodes && CaughtUp(c, k)
  {
    PulledParts(w, s, c, l, quiet);
    PulledNode(w, s, c, l, quiet, k.puller);
    PulledNode(w, s, c, l, quiet, k.peer);
    if k == l {
      CaughtUpPasses(w, s, c, l, quiet);
      hide Pulled, Moved, Rises, OldFeedKept;
      TopIsHighest(s.nodes[l.peer].store);
      hide WellFormed, Since, Top;
      forall p | p in RowsOf(c, l.peer) ensures Covered(RowsOf(c, l.puller), {}, RowsOf(c, l.peer)[p]) {
        assert PassedAt(RowsOf(c, l.puller), RowsOf(s, l.peer), p);
      }
    } else {
      hide Pulled, Moved, Rises, OldFeedKept, BookmarkOk, CoveredUpTo;
      CoverKept(RowsOf(s, k.puller), RowsOf(c, k.puller), {}, {}, s.nodes[k.peer].store, c.nodes[k.peer].store,
                PeerSeq(s.nodes[k.puller].store, k.peer));
    }
  }

  /**
   When a node is caught up. On runs without collection on which a page that deferred
   an entry is the last of its pull: exactly when it is at or past every row it has
   refused and its peer still holds at or below the bookmark.
   */
  lemma {:induction false} CaughtUpUnlessRefused(w: World, c0: Cluster, run: seq<Action>, l: Link)
    requires GoodWorld(w) && Init(w, c0) && Legal(w, c0, run) && CarefulRun(w, c0, run)
    requires var c := Run(w, c0, run); l.puller in c.nodes && l.peer in c.nodes
    ensures var c := Run(w, c0, run);
            var mine, peer, seen := RowsOf(c, l.puller), RowsOf(c, l.peer), PeerSeq(c.nodes[l.puller].store, l.peer);
            CaughtUp(c, l) <==>
            forall p | p in peer && peer[p].pos <= seen && Norm(peer[p]) in Of(c.hist.rejected, l.puller) ::
              PassedAt(mine, peer, p)
  {
    hide Legal, Run, CarefulRun, Init, GoodWorld, Inv;
    InitIsInv(w, c0);
    InitIsSound(w, c0);
    RunKeepsSound(w, c0, run);
    var c := Run(w, c0, run);
    assert LinkCovered(c, l.puller, l.peer, PeerSeq(c.nodes[l.puller].store, l.peer));
    hide BookmarksSound;
    var peer := RowsOf(c, l.peer);
    forall p | p in peer && peer[p].pos <= PeerSeq(c.nodes[l.puller].store, l.peer)
      ensures Covered(RowsOf(c, l.puller), {}, peer[p]) <==> PassedAt(RowsOf(c, l.puller), peer, p)
    {
      ReachableIsFiled(w, c0, run, l.peer, p);
    }
  }

  lemma ReachableIsFiled(w: World, c0: Cluster, run: seq<Action>, n: string, p: string)
    requires GoodWorld(w) && Init(w, c0) && Legal(w, c0, run)
    requires n in Run(w, c0, run).nodes && p in RowsOf(Run(w, c0, run), n)
    ensures RowsOf(Run(w, c0, run), n)[p].path == p
  {
    hide Legal, Run, Init, GoodWorld, Inv;
    ReachableIsInv(w, c0, run);
    NodeOf(w, Run(w, c0, run), n);
  }

  /* ----- pulls in a row ----- */

  datatype Sync = Sync(link: Link, run: seq<Action>)

  /** One whole clean pull after another, over any links. */
  ghost predicate IsSweep(w: World, c: Cluster, syncs: seq<Sync>)
    decreases |syncs|
  {
    syncs == [] ||
    (WholePull(w, c, syncs[0].link, syncs[0].run) && IsSweep(w, Run(w, c, syncs[0].run), syncs[1..]))
  }

  /** The cluster before the k-th pull of a sweep. */
  ghost function At(w: World, c: Cluster, syncs: seq<Sync>, k: nat): Cluster
    requires IsSweep(w, c, syncs) && k <= |syncs|
    decreases k
  {
    if k == 0 then c else At(w, Run(w, c, syncs[0].run), syncs[1..], k - 1)
  }

  /** The k-th pull of a sweep leads from the k-th cluster to the next. */
  lemma {:induction false} AtNext(w: World, c: Cluster, syncs: seq<Sync>, k: nat)
    requires IsSweep(w, c, syncs) && k < |syncs|
    ensures WholePull(w, At(w, c, syncs, k), syncs[k].link, syncs[k].run)
    ensures At(w, c, syncs, k + 1) == Run(w, At(w, c, syncs, k), syncs[k].run)
    decreases k
  {
    hide Run, Legal, CleanPull;
    var c1 := Run(w, c, syncs[0].run);
    if k == 0 {
      assert At(w, c1, syncs[1..], 0) == c1;
    } else {
      AtNext(w, c1, syncs[1..], k - 1);
      assert syncs[1..][k - 1] == syncs[k];
    }
  }

  /* ----- something missed ----- */

  /** The peer's row for p lies where a pull does not read, and the puller is not at or past it. */
  ghost predicate Missed(c: Cluster, l: Link, p: string)
  {
    && l.puller in c.nodes && l.peer in c.nodes && l.puller != l.peer
    && p in RowsOf(c, l.peer) && !IsConflictName(p) && RowsOf(c, l.peer)[p].pos <= Since(c, l)
    && !PassedAt(RowsOf(c, l.puller), RowsOf(c, l.peer), p)
  }

  function Back(l: Link): Link
  {
    Link(l.peer, l.puller)
  }

  lemma TopRises(st: StoreState, st': StoreState)
    requires WellFormed(st) && WellFormed(st') && Rises(st.rows, st'.rows) && OldFeedKept(st, st')
    ensures Top(st.rows) <= Top(st'.rows)
  {
    TopIsHighest(st);
    TopIsHighest(st');
    if Top(st.rows) > 0 {
      TopIsARow(st);
      hide Top;
      var p :| p in st.rows && st.rows[p].pos == Top(st.rows);
      assert st'.rows[p].pos <= Top(st'.rows);
    }
  }

  lemma TopIsARow(st: StoreState)
    requires WellFormed(st) && Top(st.rows) > 0
    ensures exists p :: p in st.rows && st.rows[p].pos == Top(st.rows)
  {
    SortedIsComplete(st.rows, st.rows.Keys);
    HighestIsThere(All(st.rows), |All(st.rows)|);
    var i :| 0 <= i < |All(st.rows)| && All(st.rows)[i].pos == Top(st.rows);
    assert All(st.rows)[i].path in st.rows;
  }

  lemma {:induction false} HighestIsThere(all: seq<Meta>, n: nat)
    requires n <= |all| && HighestPos(all, n) > 0
    ensures exists i :: 0 <= i < n && all[i].pos == HighestPos(all, n)
  {
    if all[n - 1].pos != HighestPos(all, n) {
      HighestIsThere(all, n - 1);
    }
  }

  /** Pulling again does not help. */
  lemma MissedByPull(w: World, s: Cluster, c: Cluster, l: Link, p: string)
    requires Pulled(w, s, c, l, false) && Missed(s, l, p)
    ensures Missed(c, l, p)
  {
    PulledParts(w, s, c, l, false);
    PulledExactly(w, s, c, l, false, p);
    hide Pulled, Moved, IsConflictName, WellFormed, PassedAt, Top;
  }

  /** Nor does the peer's pulling from the puller: the peer's row is the later one, and stays as it is. */
  lemma MissedByReturn(w: World, s: Cluster, c: Cluster, l: Link, p: string)
    requires Pulled(w, s, c, Back(l), false) && Missed(s, l, p)
    requires WellFormed(s.nodes[l.peer].store) && WellFormed(c.nodes[l.peer].store)
    ensures Missed(c, l, p)
  {
    PulledParts(w, s, c, Back(l), false);
    var mine, peer, peer' := RowsOf(s, l.puller), RowsOf(s, l.peer), RowsOf(c, l.peer);
    assert ComesFrom(peer, mine, false, p, peer'[p]);
    assert Norm(peer'[p]).version == peer'[p].version;
    AfterIsTotal(peer'[p].version, peer[p].version);
    assert peer'[p] == peer[p];
    TopRises(s.nodes[l.peer].store, c.nodes[l.peer].store);
    hide Pulled, RowsComeFrom, Untouched, IsConflictName, Top, Rises, OldFeedKept;
  }

  lemma FirstSync(w: World, c: Cluster, syncs: seq<Sync>)
    requires IsSweep(w, c, syncs) && syncs != [] && GoodWorld(w) && Inv(w, c)
    ensures var l, c1 := syncs[0].link, Run(w, c, syncs[0].run);
            && Pulled(w, c, c1, l, false) && Inv(w, c1) && c1.nodes.Keys == c.nodes.Keys
            && IsSweep(w, c1, syncs[1..])
  {
    hide Run, Legal, CleanPull, Inv, GoodWorld, Pulled, Begins;
    LoudBegins(c, syncs[0].link);
    PullAchieves(w, c, syncs[0].link, syncs[0].run, false);
  }

  predicate BothWays(l: Link, syncs: seq<Sync>)
  {
    forall i | 0 <= i < |syncs| :: syncs[i].link == l || syncs[i].link == Back(l)
  }

  lemma {:induction false} StaysMissed(w: World, c: Cluster, l: Link, syncs: seq<Sync>, p: string)
    requires IsSweep(w, c, syncs) && BothWays(l, syncs) && Missed(c, l, p)
    requires GoodWorld(w) && Inv(w, c)
    ensures Missed(At(w, c, syncs, |syncs|), l, p)
    decreases |syncs|
  {
    hide CleanPull, Legal, GoodWorld, Inv, Run, Missed, Pulled;
    if syncs != [] {
      var c1 := Run(w, c, syncs[0].run);
      FirstSync(w, c, syncs);
      if syncs[0].link == l {
        MissedByPull(w, c, c1, l, p);
      } else {
        PeersAreFormed(w, c, c1, l, p);
        MissedByReturn(w, c, c1, l, p);
      }
      StaysMissed(w, c1, l, syncs[1..], p);
    }
  }

  lemma PeersAreFormed(w: World, s: Cluster, c: Cluster, l: Link, p: string)
    requires Missed(s, l, p) && Inv(w, s) && Inv(w, c)
    ensures l.peer in s.nodes && l.peer in c.nodes
    ensures WellFormed(s.nodes[l.peer].store) && WellFormed(c.nodes[l.peer].store)
  {
    hide Inv, IsConflictName, PassedAt, Since;
    ShapesAgree(w, s, c);
    NodeOf(w, s, l.peer);
    NodeOf(w, c, l.peer);
    FormedOf(s.nodes[l.peer]);
    FormedOf(c.nodes[l.peer]);
  }

  /** Identical trees: the same paths, with the same rows but for feed positions. */
  ghost predicate IdenticalTrees(a: Rows, b: Rows)
  {
    a.Keys == b.Keys && forall p | p in a :: Norm(a[p]) == Norm(b[p])
  }

  lemma IdenticalIsPassed(mine: Rows, peer: Rows, p: string)
    requires IdenticalTrees(mine, peer) && p in peer
    ensures PassedAt(mine, peer, p)
  {
    assert Norm(mine[p]).version == Norm(peer[p]).version;
    AfterIsTotal(mine[p].version, peer[p].version);
  }

  /**
   Missed for good. From any reachable state in which a node has missed a row of its
   peer: however often the two then pull from each other, in whatever order, both ways,
   the row stays missed, and the two trees stay apart.
   */
  lemma {:induction false} MissedForGood(w: World, c0: Cluster, before: seq<Action>, l: Link, syncs: seq<Sync>,
                                         p: string)
    requires GoodWorld(w) && Init(w, c0) && Legal(w, c0, before)
    requires var s := Run(w, c0, before); Missed(s, l, p) && IsSweep(w, s, syncs) && BothWays(l, syncs)
    ensures var c := At(w, Run(w, c0, before), syncs, |syncs|);
            Missed(c, l, p) && !IdenticalTrees(RowsOf(c, l.puller), RowsOf(c, l.peer))
  {
    hide Legal, Run, GoodWorld, Init, Inv, IsSweep, At, Since, IdenticalTrees, IsConflictName, PassedAt, BothWays;
    ReachableIsInv(w, c0, before);
    var s := Run(w, c0, before);
    StaysMissed(w, s, l, syncs, p);
    var c := At(w, s, syncs, |syncs|);
    if IdenticalTrees(RowsOf(c, l.puller), RowsOf(c, l.peer)) {
      IdenticalIsPassed(RowsOf(c, l.puller), RowsOf(c, l.peer), p);
    }
  }
}
