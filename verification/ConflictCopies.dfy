/**
 Conflict copies are the cluster's, not one node's: on every run, all that is filed
 under one conflict name holds one content, exchanging copies is never a conflict
 again, and no copy of a copy comes into being.
 */
module ConflictCopies {
  import opened Hlc
  import opened Path
  import opened Entry
  import opened Store
  import opened Transport
  import opened Node
  import opened AntiEntropy
  import opened NodeFacts
  import opened EditsKept
  import opened Cluster
  import opened ClusterInvariant
  import opened LostEdits

  /** Two writes under one conflict name hold one content. */
  lemma CopiesAgree(c: Cluster, x: Meta, y: Meta)
    requires Norm(x) in c.hist.writes && Norm(y) in c.hist.writes && x.path == y.path && IsConflictName(x.path)
    requires CopiesNamed(c.hist.writes) && OneContent(c.hist.writes)
    ensures !x.deleted && !y.deleted && x.hash == y.hash
  {
    hide IsConflictName, ConflictName;
    assert NamedAfter(c.hist.writes, Norm(x)) && NamedAfter(c.hist.writes, Norm(y));
    var l :| l in c.hist.writes && HoldsContent(l) && NameOf(l) == x.path && l.hash == x.hash;
    var l' :| l' in c.hist.writes && HoldsContent(l') && NameOf(l') == y.path && l'.hash == y.hash;
  }

  /** m is a row of some node, or an entry of a page on its way. */
  ghost predicate Visible(c: Cluster, m: Meta)
  {
    || (exists n | n in c.nodes :: m.path in c.nodes[n].store.rows && c.nodes[n].store.rows[m.path] == m)
    || (exists l | l in c.pulls :: c.pulls[l].Holding? && m in c.pulls[l].page.entries)
  }

  lemma VisibleIsWritten(w: World, c: Cluster, m: Meta)
    requires Visible(c, m) && Inv(w, c)
    ensures Norm(m) in c.hist.writes
  {
    hide Inv, NodeOk;
    ShapeOf(w, c);
    if n :| n in c.nodes && m.path in c.nodes[n].store.rows && c.nodes[n].store.rows[m.path] == m {
      NodeOf(w, c, n);
      ListedAt(c.hist.writes, c.nodes[n].store.rows, m.path);
    } else {
      var l :| l in c.pulls && c.pulls[l].Holding? && m in c.pulls[l].page.entries;
      PhaseOf(w, c, l);
    }
  }

  /** Receiving a copy of what one has a copy of is never a conflict. */
  ghost predicate QuietAtNames(c: Cluster, l: Link)
  {
    l in c.pulls && c.pulls[l].Holding? && l.puller in c.nodes ==>
      forall e | e in c.pulls[l].page.entries && IsConflictName(e.path) ::
        !InConflict(c.nodes[l.puller].store.rows, e)
  }

  lemma CopiesAreQuiet(w: World, c: Cluster, l: Link)
    requires EditInv(c.hist) && OneContent(c.hist.writes) && Inv(w, c)
    ensures QuietAtNames(c, l)
  {
    hide Inv, NodeOk, IsConflictName, OneContent, CopiesNamed, Listed;
    if l in c.pulls && c.pulls[l].Holding? && l.puller in c.nodes {
      var rows := c.nodes[l.puller].store.rows;
      ShapeOf(w, c);
      NodeOf(w, c, l.puller);
      FormedOf(c.nodes[l.puller]);
      PhaseOf(w, c, l);
      forall e | e in c.pulls[l].page.entries && IsConflictName(e.path) ensures !InConflict(rows, e) {
        if e.path in rows {
          ListedAt(c.hist.writes, rows, e.path);
          CopiesAgree(c, e, rows[e.path]);
        }
      }
    }
  }

  /* ----- copies of copies ----- */

  /** m holds the content of some write to a path that is no conflict name. */
  ghost predicate CopyOfPlain(writes: set<Meta>, m: Meta)
  {
    exists l | l in writes :: !IsConflictName(l.path) && HoldsContent(l) && NameOf(l) == m.path && l.hash == m.hash
  }

  /** Everything filed under a conflict name is a copy of something that is not. */
  ghost predicate OneLevel(writes: set<Meta>)
  {
    forall m | m in writes && IsConflictName(m.path) :: CopyOfPlain(writes, m)
  }

  lemma OneLevelGrows(writes: set<Meta>, more: set<Meta>)
    requires OneLevel(writes)
    requires forall m | m in more :: m in writes || !IsConflictName(m.path) || CopyOfPlain(writes, m)
    ensures OneLevel(writes + more)
  {
    hide IsConflictName, ConflictName;
    forall m | m in writes + more && IsConflictName(m.path) ensures CopyOfPlain(writes + more, m) {
      assert CopyOfPlain(writes, m);
      var l :| l in writes && !IsConflictName(l.path) && HoldsContent(l) && NameOf(l) == m.path && l.hash == m.hash;
      assert l in writes + more;
    }
  }

  lemma NewWriteIsPlain(w: World, c: Cluster, l: Link, inputs: seq<Input>, m: Meta)
    requires Enabled(c, Receive(l, inputs)) && l.puller in w.limits
    requires m in Norms(ApplyRemote(Cfg(w, l.puller), c.nodes[l.puller], c.pulls[l].page.entries, inputs).batch)
    requires EditInv(c.hist) && OneContent(c.hist.writes) && GoodWorld(w) && Inv(w, c)
    ensures m in c.hist.writes || CopyOfPlain(c.hist.writes, m)
  {
    hide AccAt, Apply, Inv, NodeOk, Valid, ConflictName, IsConflictName, Listed, InConflict, EditInv, OneContent,
      GoodWorld;
    ShapeOf(w, c);
    NodeOf(w, c, l.puller);
    FormedOf(c.nodes[l.puller]);
    PhaseOf(w, c, l);
    CopiesAreQuiet(w, c, l);
    hide Shape;
    var cfg, n, entries := Cfg(w, l.puller), c.nodes[l.puller], c.pulls[l].page.entries;
    CopiesComeFromConflicts(cfg, n, entries, inputs, |entries|);
    var batch := ApplyRemote(cfg, n, entries, inputs).batch;
    var i :| 0 <= i < |batch| && m == Norm(batch[i]);
    if batch[i] !in entries {
      var e :| e in entries && InConflict(n.store.rows, e) && IsCopyOf(cfg, n.store.rows, batch[i], e.path);
      ListedAt(c.hist.writes, n.store.rows, e.path);
      assert NameOf(Norm(n.store.rows[e.path])) == m.path;
    }
  }

  lemma ReceiveKeepsLevel(w: World, c: Cluster, l: Link, inputs: seq<Input>)
    requires Enabled(c, Receive(l, inputs)) && l.puller in w.limits && OneLevel(c.hist.writes)
    requires EditInv(c.hist) && OneContent(c.hist.writes) && GoodWorld(w) && Inv(w, c)
    ensures OneLevel(DoReceive(w, c, l, inputs).hist.writes)
  {
    hide DoReceive, ApplyRemote, Inv, GoodWorld, OneLevel, CopyOfPlain, RoomForPage, Norms, EditInv, OneContent;
    ShapeOf(w, c);
    if c.pulls[l].page.entries == [] {
      ReceiveNothing(w, c, l, inputs);
    } else {
      ReceiveShape(w, c, l, inputs);
      hide Shape;
      var a := ApplyRemote(Cfg(w, l.puller), c.nodes[l.puller], c.pulls[l].page.entries, inputs);
      forall m | m in Norms(a.batch) ensures m in c.hist.writes || CopyOfPlain(c.hist.writes, m) {
        NewWriteIsPlain(w, c, l, inputs, m);
      }
      OneLevelGrows(c.hist.writes, Norms(a.batch));
    }
  }

  lemma WriteKeepsLevel(w: World, c: Cluster, n: string, op: LocalOp, at: int64)
    requires Enabled(c, Write(n, op, at)) && n in w.limits && OneLevel(c.hist.writes) && !IsConflictName(op.path)
    requires Inv(w, c)
    ensures OneLevel(DoWrite(w, c, n, op, at).hist.writes)
  {
    hide RunLocal, Inv, NodeOk, StoredBy, SanitizePath, CopyOfPlain, OneLevel, IsConflictName;
    NodeOf(w, c, n);
    FormedOf(c.nodes[n]);
    WriteLands(Cfg(w, n), c.nodes[n], op, at);
    var o := RunLocal(Cfg(w, n), c.nodes[n], op, at);
    OneLevelGrows(c.hist.writes, Norms(o.batch));
  }

  lemma ActionKeepsLevel(w: World, c: Cluster, a: Action)
    requires Enabled(c, a) && c.nodes.Keys == w.limits.Keys && HandsOff([a]) && OneLevel(c.hist.writes)
    requires EditInv(c.hist) && OneContent(c.hist.writes) && GoodWorld(w) && Inv(w, c)
    ensures OneLevel(Do(w, c, a).hist.writes)
  {
    hide Inv, EditInv, IsConflictName, RunLocal, ApplyRemote, RoomForPage, AbsorbedPaths, RejectedRows, StoredBy,
      BeginPull, GetManifest, DoWrite, DoReceive, OneLevel, OneContent, GoodWorld;
    if a.Write? {
      assert [a][0] == a;
      WriteKeepsLevel(w, c, a.node, a.op, a.at);
    } else if a.Receive? {
      ReceiveKeepsLevel(w, c, a.link, a.inputs);
    }
  }

  lemma OneContentBefore(writes: set<Meta>, writes': set<Meta>)
    requires writes <= writes' && OneContent(writes')
    ensures OneContent(writes)
  {
    hide NameOf;
  }

  lemma {:induction false} RunKeepsLevel(w: World, c: Cluster, run: seq<Action>)
    requires Legal(w, c, run) && HandsOff(run) && OneLevel(c.hist.writes) && EditInv(c.hist)
    requires OneContent(Run(w, c, run).hist.writes) && GoodWorld(w) && Inv(w, c)
    ensures OneLevel(Run(w, c, run).hist.writes) && c.hist.writes <= Run(w, c, run).hist.writes
    decreases |run|
  {
    hide Do, Inv, Enabled, GoodWorld, EditInv, OneLevel, OneContent, IsConflictName;
    if run != [] {
      WritesOnlyGrow(w, c, run);
      OneContentBefore(c.hist.writes, Run(w, c, run).hist.writes);
      ActionKeepsInv(w, c, run[0]);
      ActionKeepsEdits(w, c, run[0]);
      ActionKeepsLevel(w, c, run[0]);
      RunKeepsLevel(w, Do(w, c, run[0]), run[1..]);
    }
  }

  lemma {:induction false} WritesOnlyGrow(w: World, c: Cluster, run: seq<Action>)
    requires Legal(w, c, run) && HandsOff(run) && EditInv(c.hist) && GoodWorld(w) && Inv(w, c)
    ensures c.hist.writes <= Run(w, c, run).hist.writes
    decreases |run|
  {
    hide Do, Inv, Enabled, GoodWorld, EditInv, IsConflictName;
    if run != [] {
      ActionKeepsInv(w, c, run[0]);
      ActionKeepsEdits(w, c, run[0]);
      WritesOnlyGrow(w, Do(w, c, run[0]), run[1..]);
    }
  }

  /** Nothing is filed under the conflict name of something filed under a conflict name. */
  lemma NoSecondLevel(w: World, c: Cluster, m: Meta, l: Meta)
    requires m in c.hist.writes && l in c.hist.writes && IsConflictName(l.path) && OneLevel(c.hist.writes)
    requires GoodWorld(w) && Inv(w, c)
    ensures m.path != NameOf(l)
  {
    hide Inv, GoodWorld, ConflictName, IsConflictName, CopyOfPlain;
    OriginIsPlain(w, c, l);
    if m.path == NameOf(l) {
      ConflictNameIsRecognised(l.path, l.version.origin, l.version.hlc.wall);
      PlainOriginal(w, c, m, l);
    }
  }

  lemma PlainOriginal(w: World, c: Cluster, m: Meta, l: Meta)
    requires m in c.hist.writes && l in c.hist.writes && m.path == NameOf(l) && CopyOfPlain(c.hist.writes, m)
    requires GoodWorld(w) && Inv(w, c)
    ensures !IsConflictName(l.path)
  {
    hide Inv, GoodWorld, ConflictName, IsConflictName;
    var o :| o in c.hist.writes && !IsConflictName(o.path) && HoldsContent(o) && NameOf(o) == m.path
             && o.hash == m.hash;
    OriginIsPlain(w, c, l);
    OriginIsPlain(w, c, o);
    ConflictNameInjective(l.path, l.version.origin, l.version.hlc.wall, o.path, o.version.origin, o.version.hlc.wall);
  }

  /** All that is visible under one conflict name is live and holds one content. */
  ghost predicate NamesHoldOneContent(c: Cluster)
  {
    forall x, y | Visible(c, x) && Visible(c, y) && x.path == y.path && IsConflictName(x.path) ::
      !x.deleted && !y.deleted && x.hash == y.hash
  }

  ghost predicate NoCopyOfCopy(writes: set<Meta>)
  {
    forall m, l | m in writes && l in writes && IsConflictName(l.path) :: m.path != NameOf(l)
  }

  /**
   Conflict copies, on every run on which nobody writes to conflict names by hand
   and names name one content. Whatever rows and page entries share a conflict name,
   on whichever nodes they were made, are live and hold the same content; a page
   never conflicts at a conflict name; and no write is ever filed under the conflict
   name of something that has a conflict name itself.
   */
  lemma ConflictCopiesAgree(w: World, c0: Cluster, run: seq<Action>)
    requires GoodWorld(w) && Init(w, c0) && Legal(w, c0, run) && HandsOff(run)
    requires OneContent(Run(w, c0, run).hist.writes)
    ensures var c := Run(w, c0, run);
            NamesHoldOneContent(c) && NoCopyOfCopy(c.hist.writes) && forall l :: QuietAtNames(c, l)
  {
    hide Legal, Run, HandsOff, GoodWorld, Inv, EditInv, OneContent, QuietAtNames, Visible, IsConflictName, NameOf,
      OneLevel;
    InitIsInv(w, c0);
    InitKeepsEdits(w, c0);
    InitIsOneLevel(w, c0);
    RunKeepsInv(w, c0, run);
    RunKeepsEdits(w, c0, run);
    RunKeepsLevel(w, c0, run);
    var c := Run(w, c0, run);
    hide Init;
    forall x, y | Visible(c, x) && Visible(c, y) && x.path == y.path && IsConflictName(x.path)
      ensures !x.deleted && !y.deleted && x.hash == y.hash
    {
      VisibleIsWritten(w, c, x);
      VisibleIsWritten(w, c, y);
      CopiesAgree(c, x, y) by {
        NamedOf(c.hist);
      }
    }
    forall m, l | m in c.hist.writes && l in c.hist.writes && IsConflictName(l.path) ensures m.path != NameOf(l) {
      NoSecondLevel(w, c, m, l);
    }
    forall l ensures QuietAtNames(c, l) {
      CopiesAreQuiet(w, c, l);
    }
  }

  lemma InitIsOneLevel(w: World, c: Cluster)
    requires Init(w, c)
    ensures OneLevel(c.hist.writes)
  {
  }

  lemma NamedOf(h: History)
    requires EditInv(h)
    ensures CopiesNamed(h.writes)
  {
    hide CopiesNamed, HeldOk;
  }
}
