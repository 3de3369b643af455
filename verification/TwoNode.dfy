/**
 Two-node convergence: from any reachable state in which neither node has missed a
 row of the other, B pulls from A, A from B, and B from A again. Then both hold the
 same tree, and the third pull has made no conflict copy.
 */
module TwoNode {
  import opened Wrappers
  import opened Hlc
  import opened Path
  import opened Entry
  import opened Resolution
  import opened Store
  import opened Cluster
  import opened ClusterInvariant
  import opened LostEdits
  import opened ConflictCopies
  import opened PullSteps
  import opened CatchUp

  /** The invariants of a run on which nobody writes to conflict names by hand. */
  ghost predicate Sound(w: World, c: Cluster)
  {
    Inv(w, c) && EditInv(c.hist)
  }

  lemma ReachableIsSound(w: World, c0: Cluster, before: seq<Action>)
    requires Legal(w, c0, before) && HandsOff(before)
    requires GoodWorld(w) && Init(w, c0)
    ensures Sound(w, Run(w, c0, before))
  {
    hide Legal, Run, HandsOff, GoodWorld, Inv, EditInv, Init;
    InitIsInv(w, c0);
    InitKeepsEdits(w, c0);
    RunKeepsInv(w, c0, before);
    RunKeepsEdits(w, c0, before);
  }

  lemma PullKeepsSound(w: World, c: Cluster, l: Link, run: seq<Action>)
    requires WholePull(w, c, l, run)
    requires GoodWorld(w) && Sound(w, c)
    ensures Sound(w, Run(w, c, run))
  {
    hide Legal, Run, CleanPull, GoodWorld, Inv, EditInv;
    RunKeepsInv(w, c, run);
    PullsWriteNothing(w, c, l, run);
    RunKeepsEdits(w, c, run);
  }

  lemma RowsListed(w: World, c: Cluster, n: string)
    requires n in c.nodes && Sound(w, c)
    ensures Listed(c.hist.writes, RowsOf(c, n)) && WellFiled(RowsOf(c, n))
    ensures UniqueVersions(c.hist.writes) && Inv(w, c) && EditInv(c.hist)
  {
    hide EditInv, PullsOk;
    NodeOf(w, c, n);
  }

  /** After B has pulled from A and A from B, nothing A holds would conflict at B. */
  lemma ThirdPullIsQuiet(c: Cluster, a0: Rows, b1: Rows, a2: Rows)
    requires RowsComeFrom(a0, b1, false, a2) && Passed(b1, a0)
    requires Listed(c.hist.writes, b1) && Listed(c.hist.writes, a2) && WellFiled(b1) && WellFiled(a2)
    requires EditInv(c.hist) && OneContent(c.hist.writes)
    ensures NoConflicts(b1, a2)
  {
    hide IsConflictName, OneContent, CopiesNamed, HeldOk, ConflictName;
    forall p | p in b1 && p in a2 ensures !Resolve(Some(b1[p]), a2[p]).Conflict? {
      assert ComesFrom(a0, b1, false, p, a2[p]);
      if p in a0 && Norm(a2[p]) == Norm(a0[p]) {
        assert PassedAt(b1, a0, p);
        AfterIsTotal(b1[p].version, a2[p].version);
      } else if Norm(a2[p]) != Norm(b1[p]) {
        CopiesAgree(c, a2[p], b1[p]);
      }
    }
  }

  lemma ThirdPullAgrees(writes: set<Meta>, b1: Rows, a2: Rows, b3: Rows)
    requires Passed(a2, b1) && Passed(b3, a2) && RowsComeFrom(b1, a2, true, b3)
    requires Listed(writes, a2) && Listed(writes, b3) && UniqueVersions(writes)
    ensures IdenticalTrees(a2, b3)
  {
    forall p | p in b3 ensures p in a2 && Norm(a2[p]) == Norm(b3[p]) {
      assert ComesFrom(b1, a2, true, p, b3[p]);
      if p in b1 && Norm(b3[p]) == Norm(b1[p]) {
        assert PassedAt(a2, b1, p) && PassedAt(b3, a2, p);
        AfterIsTotal(a2[p].version, b3[p].version);
        assert Norm(a2[p]).version == Norm(b3[p]).version;
      }
    }
    forall p | p in a2 ensures p in b3 {
      assert PassedAt(b3, a2, p);
    }
  }

  /** Neither of the two has missed a row of the other. */
  ghost predicate BothCaughtUp(c: Cluster, l: Link)
  {
    l.puller in c.nodes && l.peer in c.nodes && l.puller != l.peer && CaughtUp(c, l) && CaughtUp(c, Back(l))
  }

  /** What one whole pull between the two achieves. */
  lemma OnePull(w: World, s: Cluster, l: Link, run: seq<Action>, quiet: bool)
    requires WholePull(w, s, l, run) && BothCaughtUp(s, l)
    requires quiet ==> NoConflicts(RowsOf(s, l.puller), RowsOf(s, l.peer))
    requires GoodWorld(w) && Sound(w, s)
    ensures var c := Run(w, s, run);
            && Sound(w, c) && BothCaughtUp(c, l) && c.nodes.Keys == s.nodes.Keys && c.nodes[l.peer] == s.nodes[l.peer]
            && RowsComeFrom(RowsOf(s, l.puller), RowsOf(s, l.peer), quiet, RowsOf(c, l.puller))
            && Passed(RowsOf(c, l.puller), RowsOf(s, l.peer))
            && (quiet ==> c.hist.writes == s.hist.writes)
  {
    hide Legal, CleanPull, Run, GoodWorld, Inv, EditInv, NoConflicts, RowsComeFrom, Passed, CaughtUp, Pulled;
    PullKeepsSound(w, s, l, run);
    PullAchieves(w, s, l, run, quiet);
    var c := Run(w, s, run);
    PulledParts(w, s, c, l, quiet);
    CaughtUpPasses(w, s, c, l, quiet);
    CaughtUpStays(w, s, c, l, quiet, l);
    CaughtUpStays(w, s, c, l, quiet, Back(l));
  }

  /**
   Two-node convergence. Take any reachable state of any cluster, and two nodes that
   have missed no row of each other (whatever was collected, deferred or refused on
   the way), and then three whole pulls, B from A, A from B, B from A, free of
   deferrals and rejections; let names name one content, and nobody write to conflict
   names by hand. Afterwards A and B hold identical trees, and the third pull has
   brought no new write into being: no conflict copy.
   */
  lemma {:induction false} TwoNodeConvergence(w: World, c0: Cluster, before: seq<Action>, pull1: seq<Action>,
                                              pull2: seq<Action>, pull3: seq<Action>, a: string, b: string)
    requires GoodWorld(w) && Init(w, c0) && Legal(w, c0, before) && HandsOff(before)
    requires var c := Run(w, c0, before);
             && BothCaughtUp(c, Link(b, a)) && WholePull(w, c, Link(b, a), pull1)
             && var c1 := Run(w, c, pull1);
             && WholePull(w, c1, Link(a, b), pull2)
             && var c2 := Run(w, c1, pull2);
             && WholePull(w, c2, Link(b, a), pull3)
             && OneContent(c2.hist.writes)
    ensures var c2 := Run(w, Run(w, Run(w, c0, before), pull1), pull2);
            var c3 := Run(w, c2, pull3);
            && a in c3.nodes && b in c3.nodes
            && IdenticalTrees(RowsOf(c3, a), RowsOf(c3, b))
            && c3.hist.writes == c2.hist.writes
  {
    hide Legal, Run, HandsOff, GoodWorld, OneContent, Init, CleanPull, Inv, EditInv, Passed, RowsComeFrom, NoConflicts,
      IdenticalTrees, UniqueVersions, Listed, WellFiled, CaughtUp;
    ReachableIsSound(w, c0, before);
    var c := Run(w, c0, before);
    var c1, c2 := Run(w, c, pull1), Run(w, Run(w, c, pull1), pull2);
    var c3 := Run(w, c2, pull3);
    OnePull(w, c, Link(b, a), pull1, false);
    OnePull(w, c1, Link(a, b), pull2, false);
    var a0, b1, a2 := RowsOf(c, a), RowsOf(c1, b), RowsOf(c2, a);
    RowsListed(w, c2, a);
    RowsListed(w, c2, b);
    ThirdPullIsQuiet(c2, a0, b1, a2);
    OnePull(w, c2, Link(b, a), pull3, true);
    RowsListed(w, c3, a);
    RowsListed(w, c3, b);
    ThirdPullAgrees(c3.hist.writes, b1, a2, RowsOf(c3, b));
  }
}
