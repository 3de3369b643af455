/**
 Any number of nodes. Two sweeps in which every node pulls from every other bring
 all trees together; and a sweep changes nobody's tree exactly when they were
 together before.
 */
module Quiescence {
  import opened Hlc
  import opened Path
  import opened Entry
  import opened Resolution
  import opened Store
  import opened Wrappers
  import opened NodeFacts
  import opened Cluster
  import opened ClusterInvariant
  import opened LostEdits
  import opened ConflictCopies
  import opened PullSteps
  import opened CatchUp
  import opened TwoNode

  /** Every node pulls from every other at some time. */
  ghost predicate AllPairs(c: Cluster, syncs: seq<Sync>)
  {
    forall a, b | a in c.nodes && b in c.nodes && a != b :: Pulls(syncs, Link(a, b))
  }

  predicate Pulls(syncs: seq<Sync>, l: Link)
  {
    exists i | 0 <= i < |syncs| :: syncs[i].link == l
  }

  /** No node has missed a row of any other. */
  ghost predicate AllCaughtUp(c: Cluster)
  {
    forall l: Link | l.puller in c.nodes && l.peer in c.nodes && l.puller != l.peer :: CaughtUp(c, l)
  }

  /** Every node's tree in c' is the one it had in c. */
  ghost predicate SameTrees(c: Cluster, c': Cluster)
  {
    && c.nodes.Keys == c'.nodes.Keys
    && forall n | n in c.nodes :: IdenticalTrees(RowsOf(c, n), RowsOf(c', n))
  }

  /** No pull of the sweep changes a tree. */
  ghost predicate CommitsNothing(w: World, c: Cluster, syncs: seq<Sync>)
    requires IsSweep(w, c, syncs)
  {
    forall k | 0 <= k <= |syncs| :: SameTrees(c, At(w, c, syncs, k))
  }

  ghost predicate AllEqual(c: Cluster)
  {
    forall a, b | a in c.nodes && b in c.nodes :: IdenticalTrees(RowsOf(c, a), RowsOf(c, b))
  }

  /* ----- what one pull of a sweep does ----- */

  /** The cluster is in order and nobody has missed a row. */
  ghost predicate Ready(w: World, c: Cluster)
  {
    Inv(w, c) && AllCaughtUp(c)
  }

  lemma PullKeepsReady(w: World, s: Cluster, l: Link, run: seq<Action>, quiet: bool)
    requires WholePull(w, s, l, run) && (quiet ==> NoConflicts(RowsOf(s, l.puller), RowsOf(s, l.peer)))
    requires GoodWorld(w) && Ready(w, s)
    ensures var c := Run(w, s, run);
            && Pulled(w, s, c, l, quiet) && Ready(w, c) && c.nodes.Keys == s.nodes.Keys
            && Passed(RowsOf(c, l.puller), RowsOf(s, l.peer))
  {
    hide Legal, CleanPull, Run, GoodWorld, Inv, NoConflicts, Passed, CaughtUp, Pulled;
    PullAchieves(w, s, l, run, quiet);
    var c := Run(w, s, run);
    CaughtUpPasses(w, s, c, l, quiet);
    forall k: Link | k.puller in c.nodes && k.peer in c.nodes && k.puller != k.peer ensures CaughtUp(c, k) {
      CaughtUpStays(w, s, c, l, quiet, k);
    }
  }

  lemma {:induction false} SweepIsReady(w: World, c: Cluster, syncs: seq<Sync>, k: nat)
    requires IsSweep(w, c, syncs) && k <= |syncs|
    requires GoodWorld(w) && Ready(w, c)
    ensures Ready(w, At(w, c, syncs, k)) && At(w, c, syncs, k).nodes.Keys == c.nodes.Keys
    decreases k
  {
    hide IsSweep, GoodWorld, Ready, Run, Legal, CleanPull, Pulled, Passed;
    if k > 0 {
      SweepIsReady(w, c, syncs, k - 1);
      AtNext(w, c, syncs, k - 1);
      PullKeepsReady(w, At(w, c, syncs, k - 1), syncs[k - 1].link, syncs[k - 1].run, false);
    }
  }

  /* ----- one path, over a sweep ----- */

  /** At p a pull brings the puller what it had or what its peer has, whichever is later; the others stand still. */
  ghost predicate CarriedAt(s: Cluster, c: Cluster, l: Link, p: string)
  {
    && l.puller in s.nodes && l.peer in s.nodes && c.nodes.Keys == s.nodes.Keys
    && (forall n | n in s.nodes && n != l.puller :: RowsOf(c, n) == RowsOf(s, n))
    && var mine, mine', peer := RowsOf(s, l.puller), RowsOf(c, l.puller), RowsOf(s, l.peer);
       && (p in mine' ==> (p in mine && mine'[p].version == mine[p].version)
                          || (p in peer && mine'[p].version == peer[p].version))
       && (p in mine ==> PassedAt(mine', mine, p))
       && (p in peer ==> PassedAt(mine', peer, p))
  }

  lemma PullCarries(w: World, s: Cluster, c: Cluster, l: Link, quiet: bool, p: string)
    requires Pulled(w, s, c, l, quiet) && (quiet || !IsConflictName(p))
    requires Passed(RowsOf(c, l.puller), RowsOf(s, l.peer))
    ensures CarriedAt(s, c, l, p)
  {
    PulledParts(w, s, c, l, quiet);
    hide Pulled, Since, BookmarkOk, OldFeedKept, Untouched, IsConflictName, WellFormed;
    var mine, mine', peer := RowsOf(s, l.puller), RowsOf(c, l.puller), RowsOf(s, l.peer);
    if p in mine {
      AfterIsTotal(mine[p].version, mine[p].version);
      StaysPast(mine, mine', mine, p);
    }
    if p in mine' {
      assert ComesFrom(mine, peer, quiet, p, mine'[p]);
      assert Norm(mine'[p]).version == mine'[p].version;
    }
  }

  /** Nobody holds anything later than v at p. */
  ghost predicate AtMost(c: Cluster, p: string, v: Version)
  {
    forall n | n in c.nodes && p in RowsOf(c, n) :: AtLeast(v, RowsOf(c, n)[p].version)
  }

  ghost predicate Holds(c: Cluster, n: string, p: string, v: Version)
  {
    n in c.nodes && p in RowsOf(c, n) && RowsOf(c, n)[p].version == v
  }

  ghost predicate Nowhere(c: Cluster, p: string)
  {
    forall n | n in c.nodes :: p !in RowsOf(c, n)
  }

  /** All nodes hold the same version at p, or none holds anything. */
  ghost predicate AgreeAt(c: Cluster, p: string)
  {
    Nowhere(c, p) || exists v :: AllHold(c, p, v)
  }

  ghost predicate AllHold(c: Cluster, p: string, v: Version)
  {
    forall n | n in c.nodes :: Holds(c, n, p, v)
  }

  /** The latest version at p stays the latest, stays where it is held, and goes from peer to puller. */
  lemma LatestSpreads(s: Cluster, c: Cluster, l: Link, p: string, v: Version)
    requires CarriedAt(s, c, l, p) && AtMost(s, p, v)
    ensures AtMost(c, p, v)
    ensures forall n | Holds(s, n, p, v) :: Holds(c, n, p, v)
    ensures Holds(s, l.peer, p, v) ==> Holds(c, l.puller, p, v)
  {
    forall n | n in c.nodes && p in RowsOf(c, n) ensures AtLeast(v, RowsOf(c, n)[p].version) {
      assert n != l.puller ==> RowsOf(c, n) == RowsOf(s, n);
    }
    if p in RowsOf(c, l.puller) {
      AfterIsTotal(v, RowsOf(c, l.puller)[p].version);
    }
  }

  /** Every pull of the sweep carries p. */
  ghost predicate CarriesAt(w: World, c: Cluster, syncs: seq<Sync>, p: string)
    requires IsSweep(w, c, syncs)
  {
    forall k | 0 <= k < |syncs| :: CarriedAt(At(w, c, syncs, k), At(w, c, syncs, k + 1), syncs[k].link, p)
  }

  /** After k pulls, whoever has pulled from a holder of the latest version holds it. */
  lemma {:induction false} LatestSpreadsOver(w: World, c: Cluster, syncs: seq<Sync>, k: nat, p: string, v: Version,
                                             a: string)
    requires IsSweep(w, c, syncs) && k <= |syncs| && CarriesAt(w, c, syncs, p) && AtMost(c, p, v) && Holds(c, a, p, v)
    ensures AtMost(At(w, c, syncs, k), p, v) && Holds(At(w, c, syncs, k), a, p, v)
    ensures At(w, c, syncs, k).nodes.Keys == c.nodes.Keys
    ensures forall j | 0 <= j < k && syncs[j].link.peer == a :: Holds(At(w, c, syncs, k), syncs[j].link.puller, p, v)
    decreases k
  {
    hide IsSweep, AtMost, Holds;
    if k > 0 {
      LatestSpreadsOver(w, c, syncs, k - 1, p, v, a);
      var s, s' := At(w, c, syncs, k - 1), At(w, c, syncs, k);
      assert CarriedAt(s, s', syncs[k - 1].link, p);
      LatestSpreads(s, s', syncs[k - 1].link, p, v);
    }
  }

  lemma {:induction false} NowhereStays(w: World, c: Cluster, syncs: seq<Sync>, k: nat, p: string)
    requires IsSweep(w, c, syncs) && k <= |syncs| && CarriesAt(w, c, syncs, p) && Nowhere(c, p)
    ensures Nowhere(At(w, c, syncs, k), p)
    decreases k
  {
    hide IsSweep;
    if k > 0 {
      NowhereStays(w, c, syncs, k - 1, p);
      assert CarriedAt(At(w, c, syncs, k - 1), At(w, c, syncs, k), syncs[k - 1].link, p);
    }
  }

  /** Some node among those that hold p holds its latest version. */
  lemma {:induction false} LatestIsHeld(c: Cluster, p: string, holders: set<string>) returns (a: string)
    requires holders != {} && forall n | n in holders :: n in c.nodes && p in RowsOf(c, n)
    ensures a in holders
    ensures forall n | n in holders :: AtLeast(RowsOf(c, a)[p].version, RowsOf(c, n)[p].version)
    decreases |holders|
  {
    var n :| n in holders;
    AfterIsTotal(RowsOf(c, n)[p].version, RowsOf(c, n)[p].version);
    if holders == {n} {
      a := n;
    } else {
      var rest := LatestIsHeld(c, p, holders - {n});
      AfterIsTotal(RowsOf(c, n)[p].version, RowsOf(c, rest)[p].version);
      a := if AtLeast(RowsOf(c, n)[p].version, RowsOf(c, rest)[p].version) then n else rest;
      forall m | m in holders ensures AtLeast(RowsOf(c, a)[p].version, RowsOf(c, m)[p].version) {
        if m != n && a == n {
          AtLeastIsTransitive(RowsOf(c, n)[p].version, RowsOf(c, rest)[p].version, RowsOf(c, m)[p].version);
        }
      }
    }
  }

  /** A sweep over all pairs that carries p brings all nodes to one version of it. */
  lemma SweepAgrees(w: World, c: Cluster, syncs: seq<Sync>, p: string)
    requires IsSweep(w, c, syncs) && AllPairs(c, syncs) && CarriesAt(w, c, syncs, p)
    ensures AgreeAt(At(w, c, syncs, |syncs|), p)
  {
    hide IsSweep, CarriesAt, At, AtLeast;
    var holders := set n | n in c.nodes && p in RowsOf(c, n);
    if holders == {} {
      forall n | n in c.nodes ensures p !in RowsOf(c, n) {
        assert n !in holders;
      }
      NowhereStays(w, c, syncs, |syncs|, p);
    } else {
      var a := LatestIsHeld(c, p, holders);
      var v, end := RowsOf(c, a)[p].version, At(w, c, syncs, |syncs|);
      assert AtMost(c, p, v);
      LatestSpreadsOver(w, c, syncs, |syncs|, p, v, a);
      forall n | n in end.nodes ensures Holds(end, n, p, v) {
        if n != a {
          assert Pulls(syncs, Link(n, a));
        }
      }
      assert AllHold(end, p, v);
    }
  }

  /* ----- two sweeps ----- */

  /** The first sweep carries every path that is no conflict name. */
  lemma FirstSweepCarries(w: World, c: Cluster, syncs: seq<Sync>, p: string)
    requires IsSweep(w, c, syncs) && !IsConflictName(p)
    requires GoodWorld(w) && Ready(w, c)
    ensures CarriesAt(w, c, syncs, p)
  {
    hide IsSweep, GoodWorld, Ready, Run, Legal, CleanPull, Pulled, Passed, CarriedAt, IsConflictName;
    forall k | 0 <= k < |syncs| ensures CarriedAt(At(w, c, syncs, k), At(w, c, syncs, k + 1), syncs[k].link, p) {
      var s, l := At(w, c, syncs, k), syncs[k].link;
      SweepIsReady(w, c, syncs, k);
      AtNext(w, c, syncs, k);
      PullKeepsReady(w, s, l, syncs[k].run, false);
      PullCarries(w, s, At(w, c, syncs, k + 1), l, false, p);
    }
  }

  /** All nodes agree on everything but conflict copies, whose names name one content. */
  ghost predicate PlainAgree(w: World, c: Cluster)
  {
    Ready(w, c) && EditInv(c.hist) && OneContent(c.hist.writes) && forall p | !IsConflictName(p) :: AgreeAt(c, p)
  }

  lemma AgreeKept(s: Cluster, c: Cluster, l: Link, p: string)
    requires CarriedAt(s, c, l, p) && AgreeAt(s, p)
    ensures AgreeAt(c, p)
  {
    if v :| AllHold(s, p, v) {
      AfterIsTotal(v, v);
      assert forall n | n in s.nodes :: Holds(s, n, p, v);
      LatestSpreads(s, c, l, p, v);
      assert AllHold(c, p, v);
    }
  }

  lemma SameVersionIsQuiet(m: Meta, m': Meta)
    requires m.version == m'.version
    ensures !Resolve(Some(m), m').Conflict?
  {
  }

  /** Then no pull conflicts. */
  lemma AgreedIsQuiet(w: World, c: Cluster, l: Link)
    requires PlainAgree(w, c) && l.puller in c.nodes && l.peer in c.nodes
    ensures NoConflicts(RowsOf(c, l.puller), RowsOf(c, l.peer))
  {
    hide AllCaughtUp, Inv, OneContent, IsConflictName, HeldOk, CopiesNamed;
    RowsListed(w, c, l.puller);
    RowsListed(w, c, l.peer);
    var mine, peer := RowsOf(c, l.puller), RowsOf(c, l.peer);
    forall p | p in mine && p in peer ensures !Resolve(Some(mine[p]), peer[p]).Conflict? {
      if IsConflictName(p) {
        CopiesAgree(c, mine[p], peer[p]);
      } else {
        assert AgreeAt(c, p);
        SameVersionIsQuiet(mine[p], peer[p]);
      }
    }
  }

  /** One pull of the second sweep. */
  lemma AgreedPull(w: World, s: Cluster, l: Link, run: seq<Action>)
    requires WholePull(w, s, l, run)
    requires GoodWorld(w) && PlainAgree(w, s)
    ensures var c := Run(w, s, run);
            && PlainAgree(w, c) && c.nodes.Keys == s.nodes.Keys && c.hist.writes == s.hist.writes
            && forall p :: CarriedAt(s, c, l, p)
  {
    AgreedIsQuiet(w, s, l);
    hide Legal, CleanPull, Run, GoodWorld, Inv, EditInv, OneContent, AllCaughtUp, NoConflicts, Pulled, Passed,
      CarriedAt, IsConflictName, AgreeAt;
    var c := Run(w, s, run);
    PullKeepsReady(w, s, l, run, true);
    PullKeepsSound(w, s, l, run);
    PulledParts(w, s, c, l, true);
    forall p ensures CarriedAt(s, c, l, p) {
      PullCarries(w, s, c, l, true, p);
    }
    forall p | !IsConflictName(p) ensures AgreeAt(c, p) {
      assert AgreeAt(s, p);
      AgreeKept(s, c, l, p);
    }
  }

  lemma {:induction false} SecondSweepIsQuiet(w: World, c: Cluster, syncs: seq<Sync>, k: nat)
    requires IsSweep(w, c, syncs) && k <= |syncs|
    requires GoodWorld(w) && PlainAgree(w, c)
    ensures var s := At(w, c, syncs, k);
            PlainAgree(w, s) && s.nodes.Keys == c.nodes.Keys && s.hist.writes == c.hist.writes
    decreases k
  {
    hide IsSweep, GoodWorld, PlainAgree, Run, Legal, CleanPull;
    if k > 0 {
      SecondSweepIsQuiet(w, c, syncs, k - 1);
      AtNext(w, c, syncs, k - 1);
      AgreedPull(w, At(w, c, syncs, k - 1), syncs[k - 1].link, syncs[k - 1].run);
    }
  }

  /** The second sweep carries every path. */
  lemma SecondSweepCarries(w: World, c: Cluster, syncs: seq<Sync>, p: string)
    requires IsSweep(w, c, syncs)
    requires GoodWorld(w) && PlainAgree(w, c)
    ensures CarriesAt(w, c, syncs, p)
  {
    hide IsSweep, GoodWorld, PlainAgree, Run, Legal, CleanPull, CarriedAt;
    forall k | 0 <= k < |syncs| ensures CarriedAt(At(w, c, syncs, k), At(w, c, syncs, k + 1), syncs[k].link, p) {
      SecondSweepIsQuiet(w, c, syncs, k);
      AtNext(w, c, syncs, k);
      AgreedPull(w, At(w, c, syncs, k), syncs[k].link, syncs[k].run);
    }
  }

  lemma AgreedIsEqual(w: World, c: Cluster)
    requires forall p :: AgreeAt(c, p)
    requires Inv(w, c)
    ensures AllEqual(c)
  {
    hide Inv, NodeOk;
    forall a, b | a in c.nodes && b in c.nodes ensures IdenticalTrees(RowsOf(c, a), RowsOf(c, b)) {
      NodeOf(w, c, a);
      NodeOf(w, c, b);
      WritesOf(w, c);
      forall p ensures p in RowsOf(c, a) <==> p in RowsOf(c, b)
        ensures p in RowsOf(c, a) ==> Norm(RowsOf(c, a)[p]) == Norm(RowsOf(c, b)[p])
      {
        assert AgreeAt(c, p);
        if p in RowsOf(c, a) {
          assert Norm(RowsOf(c, a)[p]).version == Norm(RowsOf(c, b)[p]).version;
        }
      }
    }
  }

  lemma WritesOf(w: World, c: Cluster)
    requires Inv(w, c)
    ensures UniqueVersions(c.hist.writes)
  {
  }

  /** What the first sweep achieves. */
  lemma FirstSweepAgrees(w: World, c: Cluster, syncs: seq<Sync>)
    requires IsSweep(w, c, syncs) && AllPairs(c, syncs) && EditInv(c.hist)
    requires OneContent(At(w, c, syncs, |syncs|).hist.writes)
    requires GoodWorld(w) && Ready(w, c)
    ensures PlainAgree(w, At(w, c, syncs, |syncs|)) && At(w, c, syncs, |syncs|).nodes.Keys == c.nodes.Keys
  {
    hide IsSweep, GoodWorld, Ready, AllPairs, AgreeAt, OneContent, CarriesAt, IsConflictName, At, EditInv;
    SweepIsReady(w, c, syncs, |syncs|);
    SweepKeepsEdits(w, c, syncs, |syncs|);
    forall p | !IsConflictName(p) ensures AgreeAt(At(w, c, syncs, |syncs|), p) {
      FirstSweepCarries(w, c, syncs, p);
      SweepAgrees(w, c, syncs, p);
    }
  }

  lemma {:induction false} SweepKeepsEdits(w: World, c: Cluster, syncs: seq<Sync>, k: nat)
    requires IsSweep(w, c, syncs) && k <= |syncs| && EditInv(c.hist)
    requires GoodWorld(w) && Ready(w, c)
    ensures EditInv(At(w, c, syncs, k).hist)
    decreases k
  {
    hide IsSweep, GoodWorld, Inv, AllCaughtUp, Run, Legal, CleanPull, EditInv;
    if k > 0 {
      SweepKeepsEdits(w, c, syncs, k - 1);
      SweepIsReady(w, c, syncs, k - 1);
      AtNext(w, c, syncs, k - 1);
      PullKeepsSound(w, At(w, c, syncs, k - 1), syncs[k - 1].link, syncs[k - 1].run);
    }
  }

  /**
   Convergence of any number of nodes. Take any reachable state in which no node has
   missed a row of another, and then two sweeps of whole pulls, free of deferrals and
   rejections, in each of which every node pulls from every other, in any order and as
   often as it likes; let names name one content, and nobody write to conflict names by
   hand. Afterwards all trees are identical, and the second sweep, which is there for
   the conflict copies of the first, has brought no new write into being.
   */
  lemma {:induction false} TwoSweepsConverge(w: World, c0: Cluster, before: seq<Action>, first: seq<Sync>,
                                             second: seq<Sync>)
    requires GoodWorld(w) && Init(w, c0) && Legal(w, c0, before) && HandsOff(before)
    requires var c := Run(w, c0, before);
             && AllCaughtUp(c) && IsSweep(w, c, first) && AllPairs(c, first)
             && var c1 := At(w, c, first, |first|);
             && IsSweep(w, c1, second) && AllPairs(c1, second) && OneContent(c1.hist.writes)
    ensures var c1 := At(w, Run(w, c0, before), first, |first|);
            var c2 := At(w, c1, second, |second|);
            AllEqual(c2) && c2.hist.writes == c1.hist.writes && c2.nodes.Keys == Run(w, c0, before).nodes.Keys
  {
    hide Legal, Run, HandsOff, GoodWorld, Init, IsSweep, AllPairs, AllEqual, Inv, EditInv, OneContent, AllCaughtUp, At,
      IsConflictName, AgreeAt, CarriesAt;
    ReachableIsSound(w, c0, before);
    var c := Run(w, c0, before);
    FirstSweepAgrees(w, c, first);
    var c1 := At(w, c, first, |first|);
    SecondSweepIsQuiet(w, c1, second, |second|);
    var c2 := At(w, c1, second, |second|);
    forall p ensures AgreeAt(c2, p) {
      SecondSweepCarries(w, c1, second, p);
      SweepAgrees(w, c1, second, p);
    }
    AgreedIsEqual(w, c2);
  }

  /* ----- still, hence equal ----- */

  lemma IdenticalIsTransitive(a: Rows, b: Rows, c: Rows)
    requires IdenticalTrees(a, b) && IdenticalTrees(b, c)
    ensures IdenticalTrees(a, c)
  {
    forall p | p in a ensures p in c && Norm(a[p]) == Norm(c[p]) {
      assert p in b;
    }
  }

  lemma IdenticalIsSymmetric(a: Rows, b: Rows)
    requires IdenticalTrees(a, b)
    ensures IdenticalTrees(b, a)
  {
  }

  lemma IdenticalToItself(rows: Rows)
    ensures IdenticalTrees(rows, rows)
  {
  }

  lemma PassedInIdentical(mine: Rows, mine': Rows, peer: Rows, peer': Rows)
    requires Passed(mine', peer') && IdenticalTrees(mine, mine') && IdenticalTrees(peer, peer')
    ensures Passed(mine, peer)
  {
    forall p | p in peer ensures PassedAt(mine, peer, p) {
      assert PassedAt(mine', peer', p);
      assert Norm(mine[p]).version == Norm(mine'[p]).version && Norm(peer[p]).version == Norm(peer'[p]).version;
    }
  }

  lemma PassedBothWays(writes: set<Meta>, a: Rows, b: Rows)
    requires Passed(a, b) && Passed(b, a) && Listed(writes, a) && Listed(writes, b) && UniqueVersions(writes)
    ensures IdenticalTrees(a, b)
  {
    forall p | p in a ensures p in b && Norm(a[p]) == Norm(b[p]) {
      assert PassedAt(b, a, p) && PassedAt(a, b, p);
      AfterIsTotal(a[p].version, b[p].version);
      assert Norm(a[p]).version == Norm(b[p]).version;
    }
    forall p | p in b ensures p in a {
      assert PassedAt(a, b, p);
    }
  }

  /** In a still sweep every node is at or past every other already. */
  lemma StillIsPassed(w: World, c: Cluster, syncs: seq<Sync>, a: string, b: string)
    requires IsSweep(w, c, syncs) && CommitsNothing(w, c, syncs) && AllPairs(c, syncs)
    requires a in c.nodes && b in c.nodes && a != b
    requires GoodWorld(w) && Ready(w, c)
    ensures Passed(RowsOf(c, a), RowsOf(c, b))
  {
    hide IsSweep, GoodWorld, Ready, Passed, At, IdenticalTrees, Run, Legal, CleanPull, Pulled;
    assert Pulls(syncs, Link(a, b));
    var k :| 0 <= k < |syncs| && syncs[k].link == Link(a, b);
    SweepIsReady(w, c, syncs, k);
    AtNext(w, c, syncs, k);
    var s, s' := At(w, c, syncs, k), At(w, c, syncs, k + 1);
    PullKeepsReady(w, s, Link(a, b), syncs[k].run, false);
    assert SameTrees(c, s) && SameTrees(c, s');
    PassedInIdentical(RowsOf(c, a), RowsOf(s', a), RowsOf(c, b), RowsOf(s, b));
  }

  lemma StillIsEqual(w: World, c: Cluster, syncs: seq<Sync>)
    requires IsSweep(w, c, syncs) && CommitsNothing(w, c, syncs) && AllPairs(c, syncs)
    requires GoodWorld(w) && Ready(w, c)
    ensures AllEqual(c)
  {
    hide IsSweep, CommitsNothing, AllPairs, GoodWorld, AllCaughtUp, Passed, IdenticalTrees, Inv, UniqueVersions,
      Listed, NodeOk;
    forall a, b | a in c.nodes && b in c.nodes ensures IdenticalTrees(RowsOf(c, a), RowsOf(c, b)) {
      if a == b {
        IdenticalToItself(RowsOf(c, a));
      } else {
        StillIsPassed(w, c, syncs, a, b);
        StillIsPassed(w, c, syncs, b, a);
        NodeOf(w, c, a);
        NodeOf(w, c, b);
        WritesOf(w, c);
        PassedBothWays(c.hist.writes, RowsOf(c, a), RowsOf(c, b));
      }
    }
  }

  /* ----- equal, hence still ----- */

  lemma EqualIsQuiet(a: Rows, b: Rows)
    requires IdenticalTrees(a, b)
    ensures NoConflicts(a, b)
  {
    forall p | p in a && p in b ensures !Resolve(Some(a[p]), b[p]).Conflict? {
      assert Norm(a[p]).version == Norm(b[p]).version;
    }
  }

  lemma QuietPullIsStill(start: Rows, peer: Rows, rows: Rows)
    requires IdenticalTrees(start, peer) && RowsComeFrom(start, peer, true, rows) && Rises(start, rows)
    ensures IdenticalTrees(start, rows)
  {
    forall p | p in rows ensures p in start && Norm(rows[p]) == Norm(start[p]) {
      assert ComesFrom(start, peer, true, p, rows[p]);
    }
  }

  lemma EqualPullIsStill(w: World, c: Cluster, l: Link, run: seq<Action>)
    requires WholePull(w, c, l, run)
    requires AllEqual(c) && GoodWorld(w) && Ready(w, c)
    ensures var c1 := Run(w, c, run); Ready(w, c1) && SameTrees(c, c1) && AllEqual(c1)
  {
    var c1, mine, peer := Run(w, c, run), RowsOf(c, l.puller), RowsOf(c, l.peer);
    assert IdenticalTrees(mine, peer);
    hide Legal, CleanPull, GoodWorld, Ready, Run, Passed, NoConflicts, Pulled, IdenticalTrees, RowsComeFrom, Rises,
      Untouched, OldFeedKept, BookmarkOk, Since, WellFormed;
    EqualIsQuiet(mine, peer);
    PullKeepsReady(w, c, l, run, true);
    PulledParts(w, c, c1, l, true);
    QuietPullIsStill(mine, peer, RowsOf(c1, l.puller));
    forall n | n in c.nodes ensures IdenticalTrees(RowsOf(c, n), RowsOf(c1, n)) {
      if n != l.puller {
        IdenticalToItself(RowsOf(c, n));
      }
    }
    StaysEqual(c, c1);
  }

  lemma StaysEqual(c: Cluster, c1: Cluster)
    requires AllEqual(c) && SameTrees(c, c1)
    ensures AllEqual(c1)
  {
    hide IdenticalTrees;
    forall a, b | a in c1.nodes && b in c1.nodes ensures IdenticalTrees(RowsOf(c1, a), RowsOf(c1, b)) {
      assert a in c.nodes && b in c.nodes;
      assert IdenticalTrees(RowsOf(c, a), RowsOf(c1, a));
      assert IdenticalTrees(RowsOf(c, b), RowsOf(c1, b));
      IdenticalIsSymmetric(RowsOf(c, a), RowsOf(c1, a));
      IdenticalIsTransitive(RowsOf(c1, a), RowsOf(c, a), RowsOf(c, b));
      IdenticalIsTransitive(RowsOf(c1, a), RowsOf(c, b), RowsOf(c1, b));
    }
  }

  lemma SameTreesTrans(a: Cluster, b: Cluster, c: Cluster)
    requires SameTrees(a, b) && SameTrees(b, c)
    ensures SameTrees(a, c)
  {
    hide IdenticalTrees;
    forall n | n in a.nodes ensures IdenticalTrees(RowsOf(a, n), RowsOf(c, n)) {
      IdenticalIsTransitive(RowsOf(a, n), RowsOf(b, n), RowsOf(c, n));
    }
  }

  lemma {:induction false} EqualIsStillAt(w: World, c: Cluster, syncs: seq<Sync>, k: nat)
    requires IsSweep(w, c, syncs) && k <= |syncs|
    requires AllEqual(c) && GoodWorld(w) && Ready(w, c)
    ensures var s := At(w, c, syncs, k); SameTrees(c, s) && AllEqual(s) && Ready(w, s)
    decreases k
  {
    hide IsSweep, GoodWorld, Ready, Run, Legal, CleanPull, AllEqual, IdenticalTrees;
    if k == 0 {
      forall n | n in c.nodes ensures IdenticalTrees(RowsOf(c, n), RowsOf(c, n)) {
        IdenticalToItself(RowsOf(c, n));
      }
    } else {
      EqualIsStillAt(w, c, syncs, k - 1);
      AtNext(w, c, syncs, k - 1);
      var s, s' := At(w, c, syncs, k - 1), At(w, c, syncs, k);
      EqualPullIsStill(w, s, syncs[k - 1].link, syncs[k - 1].run);
      SameTreesTrans(c, s, s');
    }
  }

  /**
   Quiescence of any number of nodes. Take any reachable state in which no node has
   missed a row of another, and a sweep of whole pulls from there, free of deferrals
   and rejections, in which every node pulls from every other. The sweep changes
   nobody's tree exactly when all trees are identical to begin with. So pulling until
   nothing changes any more is pulling until all agree.
   */
  lemma {:induction false} QuietExactlyWhenEqual(w: World, c0: Cluster, before: seq<Action>, syncs: seq<Sync>)
    requires GoodWorld(w) && Init(w, c0) && Legal(w, c0, before)
    requires var c := Run(w, c0, before); AllCaughtUp(c) && IsSweep(w, c, syncs) && AllPairs(c, syncs)
    ensures var c := Run(w, c0, before); CommitsNothing(w, c, syncs) <==> AllEqual(c)
  {
    hide Legal, Run, GoodWorld, Init, IsSweep, AllPairs, AllCaughtUp, AllEqual, Inv, SameTrees, At;
    ReachableIsInv(w, c0, before);
    var c := Run(w, c0, before);
    if CommitsNothing(w, c, syncs) {
      StillIsEqual(w, c, syncs);
    }
    if AllEqual(c) {
      forall k | 0 <= k <= |syncs| ensures SameTrees(c, At(w, c, syncs, k)) {
        EqualIsStillAt(w, c, syncs, k);
      }
    }
  }
}
