/** No edit is silently lost, on any run of the cluster. */
module LostEdits {
  import opened Hlc
  import opened Path
  import opened Entry
  import opened Store
  import opened Transport
  import opened Node
  import opened AntiEntropy
  import opened NodeFacts
  import opened PageEffects
  import opened EditsKept
  import opened Cluster
  import opened ClusterInvariant

  /** Naming hypothesis, first half: a path, an origin and a wall time name one content. */
  ghost predicate OneContent(writes: set<Meta>)
  {
    forall a, b | a in writes && b in writes && HoldsContent(a) && HoldsContent(b) && NameOf(a) == NameOf(b) ::
      a.hash == b.hash
  }

  /** Naming hypothesis, second half: nobody writes to conflict-named paths by hand. */
  predicate HandsOff(run: seq<Action>)
  {
    forall i | 0 <= i < |run| && run[i].Write? :: !IsConflictName(run[i].op.path)
  }

  /** m holds the content of some write it is named after. */
  ghost predicate NamedAfter(writes: set<Meta>, m: Meta)
  {
    !m.deleted && exists l | l in writes :: HoldsContent(l) && NameOf(l) == m.path && l.hash == m.hash
  }

  ghost predicate CopiesNamed(writes: set<Meta>)
  {
    forall m | m in writes && IsConflictName(m.path) :: NamedAfter(writes, m)
  }

  /** The hash a write says it replaced is what its author held at that path when writing. */
  ghost predicate HeldOk(h: History)
  {
    forall m | m in h.writes && m.prevHash != "" :: m.version in h.held && h.held[m.version] == m.prevHash
  }

  ghost predicate EditInv(h: History)
  {
    HeldOk(h) && CopiesNamed(h.writes)
  }

  lemma LocalPrevHash(cfg: Config, n: NodeState, op: LocalOp, at: int64)
    requires WellFiled(n.store.rows) && RunLocal(cfg, n, op, at).batch != []
    ensures var m := RunLocal(cfg, n, op, at).batch[0];
            m.path == op.path && (m.prevHash == "" || m.prevHash == HashAt(n.store.rows, op.path))
  {
    hide SanitizePath, WithBlob, Apply;
  }

  lemma WriteKeepsEdits(w: World, c: Cluster, n: string, op: LocalOp, at: int64)
    requires Inv(w, c) && Enabled(c, Write(n, op, at)) && n in w.limits
    requires EditInv(c.hist) && !IsConflictName(op.path)
    ensures EditInv(DoWrite(w, c, n, op, at).hist)
  {
    hide RunLocal, Inv, NodeOk, StoredBy, SanitizePath, NamedAfter, IsConflictName;
    NodeOf(w, c, n);
    FormedOf(c.nodes[n]);
    var o := RunLocal(Cfg(w, n), c.nodes[n], op, at);
    WriteLands(Cfg(w, n), c.nodes[n], op, at);
    TickAdvances(c.nodes[n].clock, at);
    var h' := DoWrite(w, c, n, op, at).hist;
    if o.batch == [] {
      assert Norms(o.batch) == {};
      assert h'.writes == c.hist.writes;
    } else {
      LocalPrevHash(Cfg(w, n), c.nodes[n], op, at);
      assert Norms(o.batch) == {Norm(o.batch[0])};
      FreshVersionIsNew(w, c, n, o.batch[0]);
      NamesGrow(c.hist.writes, h'.writes);
    }
  }

  lemma FreshVersionIsNew(w: World, c: Cluster, n: string, m: Meta)
    requires Inv(w, c) && n in c.nodes
    requires m.version.origin == n && Precedes(c.nodes[n].clock, m.version.hlc)
    ensures forall x | x in c.hist.writes :: x.version != m.version
  {
    forall x | x in c.hist.writes ensures x.version != m.version {
      assert WriteOk(c.nodes, x);
    }
  }

  lemma NamesGrow(writes: set<Meta>, writes': set<Meta>)
    requires writes <= writes'
    ensures forall m | NamedAfter(writes, m) :: NamedAfter(writes', m)
  {
    hide ConflictName;
  }

  lemma ReceiveKeepsEdits(w: World, c: Cluster, l: Link, inputs: seq<Input>)
    requires GoodWorld(w) && Inv(w, c) && Enabled(c, Receive(l, inputs)) && l.puller in w.limits
    requires EditInv(c.hist)
    ensures EditInv(DoReceive(w, c, l, inputs).hist)
  {
    hide DoReceive, ApplyRemote, Inv, NamedAfter, RoomForPage, IsConflictName, Norms;
    ShapeOf(w, c);
    if c.pulls[l].page.entries == [] {
      ReceiveNothing(w, c, l, inputs);
    } else {
      ReceiveShape(w, c, l, inputs);
      var a := ApplyRemote(Cfg(w, l.puller), c.nodes[l.puller], c.pulls[l].page.entries, inputs);
      NamesGrow(c.hist.writes, c.hist.writes + Norms(a.batch));
      forall m | m in Norms(a.batch)
        ensures m in c.hist.writes || (m.prevHash == "" && NamedAfter(c.hist.writes, m))
      {
        NewWriteIsCopy(w, c, l, inputs, m);
      }
    }
  }

  /** The only new writes a page brings into being are conflict copies of local rows. */
  lemma NewWriteIsCopy(w: World, c: Cluster, l: Link, inputs: seq<Input>, m: Meta)
    requires GoodWorld(w) && Inv(w, c) && Enabled(c, Receive(l, inputs)) && l.puller in w.limits
    requires m in Norms(ApplyRemote(Cfg(w, l.puller), c.nodes[l.puller], c.pulls[l].page.entries, inputs).batch)
    ensures m in c.hist.writes || (m.prevHash == "" && NamedAfter(c.hist.writes, m))
  {
    hide AccAt, Apply, Inv, NodeOk, Valid, ConflictName, Listed;
    ShapeOf(w, c);
    NodeOf(w, c, l.puller);
    PhaseOf(w, c, l);
    var cfg, n, entries := Cfg(w, l.puller), c.nodes[l.puller], c.pulls[l].page.entries;
    BatchFacts(cfg, n, entries, inputs);
    var batch := ApplyRemote(cfg, n, entries, inputs).batch;
    var i :| 0 <= i < |batch| && m == Norm(batch[i]);
    assert entries[..|entries|] == entries;
    if Taken(cfg, n.store.rows, entries, |entries|, batch[i]) {
      assert batch[i] in entries;
    } else {
      var e :| e in entries[..|entries|] && IsCopyOf(cfg, n.store.rows, batch[i], e.path);
      ListedAt(c.hist.writes, n.store.rows, e.path);
      assert NameOf(Norm(n.store.rows[e.path])) == m.path;
    }
  }

  lemma ListedAt(writes: set<Meta>, rows: Rows, p: string)
    requires Listed(writes, rows) && p in rows
    ensures Norm(rows[p]) in writes
  {
  }

  lemma ActionKeepsEdits(w: World, c: Cluster, a: Action)
    requires GoodWorld(w) && Inv(w, c) && Enabled(c, a) && c.nodes.Keys == w.limits.Keys
    requires EditInv(c.hist) && HandsOff([a])
    ensures EditInv(Do(w, c, a).hist) && c.hist.writes <= Do(w, c, a).hist.writes
  {
    hide Inv, EditInv, IsConflictName, RunLocal, ApplyRemote, RoomForPage, AbsorbedPaths, RejectedRows, StoredBy,
      BeginPull, GetManifest;
    if a.Write? {
      assert [a][0] == a;
      WriteKeepsEdits(w, c, a.node, a.op, a.at);
    } else if a.Receive? {
      ReceiveKeepsEdits(w, c, a.link, a.inputs);
    }
  }

  lemma {:induction false} RunKeepsEdits(w: World, c: Cluster, run: seq<Action>)
    requires GoodWorld(w) && Inv(w, c) && Legal(w, c, run)
    requires EditInv(c.hist) && HandsOff(run)
    ensures EditInv(Run(w, c, run).hist)
    decreases |run|
  {
    hide Do, Inv, Enabled, GoodWorld, EditInv, IsConflictName;
    if run != [] {
      ActionKeepsInv(w, c, run[0]);
      ActionKeepsEdits(w, c, run[0]);
      RunKeepsEdits(w, Do(w, c, run[0]), run[1..]);
    }
  }

  /** The naming hypothesis gives what a page needs. */
  lemma NamesAgreeHere(w: World, c: Cluster, l: Link)
    requires GoodWorld(w) && Inv(w, c) && l in c.pulls && c.pulls[l].Holding? && l.puller in c.nodes
    requires EditInv(c.hist) && OneContent(c.hist.writes)
    ensures NamesAgree(c.nodes[l.puller].store.rows, c.pulls[l].page.entries)
  {
    hide Inv, NodeOk, Listed, HeldOk;
    ShapeOf(w, c);
    NodeOf(w, c, l.puller);
    PhaseOf(w, c, l);
    var rows, entries := c.nodes[l.puller].store.rows, c.pulls[l].page.entries;
    forall p | p in rows
      ensures !Has(rows[p].version.origin, '.')
      ensures forall q | HoldsContent(rows[p]) && q in rows :: AgreesWithName(rows[q], rows[p])
      ensures forall e | HoldsContent(rows[p]) && e in entries :: AgreesWithName(e, rows[p])
    {
      hide OneContent, CopiesNamed, AgreesWithName, NameOf;
      ListedAt(c.hist.writes, rows, p);
      OriginIsPlain(w, c, Norm(rows[p]));
      forall q | HoldsContent(rows[p]) && q in rows ensures AgreesWithName(rows[q], rows[p]) {
        ListedAt(c.hist.writes, rows, q);
        WritesAgree(w, c, rows[q], rows[p]);
      }
      forall e | HoldsContent(rows[p]) && e in entries ensures AgreesWithName(e, rows[p]) {
        WritesAgree(w, c, e, rows[p]);
      }
    }
  }

  lemma OriginIsPlain(w: World, c: Cluster, m: Meta)
    requires GoodWorld(w) && Inv(w, c) && m in c.hist.writes
    ensures !Has(m.version.origin, '.') && !Has(m.version.origin, '/')
  {
    assert WriteOk(c.nodes, m);
  }

  lemma WritesAgree(w: World, c: Cluster, m: Meta, l: Meta)
    requires GoodWorld(w) && Inv(w, c) && EditInv(c.hist) && OneContent(c.hist.writes)
    requires Norm(m) in c.hist.writes && Norm(l) in c.hist.writes && HoldsContent(l)
    ensures AgreesWithName(m, l)
  {
    hide ConflictName, IsConflictName, Inv;
    OriginIsPlain(w, c, Norm(l));
    if m.path == NameOf(l) {
      ConflictNameIsRecognised(l.path, l.version.origin, l.version.hlc.wall);
      assert NamedAfter(c.hist.writes, Norm(m));
      var l' :| l' in c.hist.writes && HoldsContent(l') && NameOf(l') == m.path && l'.hash == m.hash;
      assert NameOf(Norm(l)) == NameOf(l');
    }
  }

  /** Where the content of a row lost at p went. */
  predicate Accounted(p: string, lost: Meta, after: Rows, held: map<Version, string>)
  {
    && p in after
    && (|| after[p].hash == lost.hash
        || (after[p].version in held && held[after[p].version] == lost.hash)
        || (NameOf(lost) in after && HoldsContent(after[NameOf(lost)]) && after[NameOf(lost)].hash == lost.hash))
  }

  /**
   No silently lost edit. On every run on which nobody writes to conflict names
   by hand and names name one content: whenever a page replaces a row that holds
   content at p, that content is kept under its conflict name, or the new row
   carries it, or the new row's author held exactly that content at p when it
   wrote (and the row says so unchanged, however many nodes relayed it).
   */
  lemma NoSilentLoss(w: World, c0: Cluster, run: seq<Action>, l: Link, inputs: seq<Input>, p: string)
    requires GoodWorld(w) && Init(w, c0) && Legal(w, c0, run) && HandsOff(run)
    requires var c := Run(w, c0, run);
             && OneContent(c.hist.writes)
             && Enabled(c, Receive(l, inputs)) && c.nodes.Keys == w.limits.Keys
             && p in c.nodes[l.puller].store.rows && HoldsContent(c.nodes[l.puller].store.rows[p])
    ensures var c := Run(w, c0, run);
            var c' := Do(w, c, Receive(l, inputs));
            var lost, after := c.nodes[l.puller].store.rows[p], c'.nodes[l.puller].store.rows;
            Accounted(p, lost, after, c'.hist.held)
  {
    hide Legal, Run, ConflictName, Listed, HandsOff, RoomForPage, EditInv, Accounted, OneContent, DoReceive;
    InitIsInv(w, c0);
    InitKeepsEdits(w, c0);
    RunKeepsInv(w, c0, run);
    RunKeepsEdits(w, c0, run);
    var c := Run(w, c0, run);
    hide Init, GoodWorld, Inv;
    LossStep(w, c, l, inputs, p);
  }

  lemma InitKeepsEdits(w: World, c: Cluster)
    requires Init(w, c)
    ensures EditInv(c.hist)
  {
  }

  lemma LossStep(w: World, c: Cluster, l: Link, inputs: seq<Input>, p: string)
    requires GoodWorld(w) && Inv(w, c) && EditInv(c.hist) && OneContent(c.hist.writes)
    requires Enabled(c, Receive(l, inputs)) && c.nodes.Keys == w.limits.Keys
    requires p in c.nodes[l.puller].store.rows && HoldsContent(c.nodes[l.puller].store.rows[p])
    ensures var c' := DoReceive(w, c, l, inputs);
            var lost, after := c.nodes[l.puller].store.rows[p], c'.nodes[l.puller].store.rows;
            Accounted(p, lost, after, c'.hist.held)
  {
    hide Inv, ConflictName, ApplyRemote, DoReceive, NamesAgree, GoodWorld, OneContent, CopiesNamed;
    ShapeOf(w, c);
    NodeOf(w, c, l.puller);
    var entries := c.pulls[l].page.entries;
    if entries == [] {
      ReceiveNothing(w, c, l, inputs);
    } else {
      PageAccounts(w, c, l, inputs, p);
    }
  }

  lemma PageAccounts(w: World, c: Cluster, l: Link, inputs: seq<Input>, p: string)
    requires Enabled(c, Receive(l, inputs)) && c.nodes.Keys == w.limits.Keys && c.pulls[l].page.entries != []
    requires p in c.nodes[l.puller].store.rows && HoldsContent(c.nodes[l.puller].store.rows[p])
    requires EditInv(c.hist) && OneContent(c.hist.writes) && GoodWorld(w) && Inv(w, c)
    ensures var c' := DoReceive(w, c, l, inputs);
            var lost, after := c.nodes[l.puller].store.rows[p], c'.nodes[l.puller].store.rows;
            Accounted(p, lost, after, c'.hist.held)
  {
    hide Inv, ConflictName, ApplyRemote, DoReceive, NamesAgree, GoodWorld, OneContent, EditInv, NodeOk, RoomForPage,
      Norms, Listed, UniqueVersions, OldFeedKept;
    var entries, cfg, n := c.pulls[l].page.entries, Cfg(w, l.puller), c.nodes[l.puller];
    ShapeOf(w, c);
    NodeOf(w, c, l.puller);
    FormedOf(n);
    NamesAgreeHere(w, c, l);
    ReceiveShape(w, c, l, inputs);
    ReceiveKeepsInv(w, c, l, inputs);
    ReceiveKeepsEdits(w, c, l, inputs);
    PageKeepsEdits(cfg, n, entries, inputs, p);
    PageRises(cfg, n, entries, inputs);
    var c' := DoReceive(w, c, l, inputs);
    hide Shape;
    HeldAt(w, c', l.puller, p);
  }

  /** The hash a stored row says it replaced is what its author held. */
  lemma HeldAt(w: World, c: Cluster, n: string, p: string)
    requires n in c.nodes && p in c.nodes[n].store.rows && EditInv(c.hist) && Inv(w, c)
    ensures var m := c.nodes[n].store.rows[p];
            m.prevHash != "" ==> m.version in c.hist.held && c.hist.held[m.version] == m.prevHash
  {
    hide Inv, CopiesNamed, NodeOk;
    NodeOf(w, c, n);
    ListedAt(c.hist.writes, c.nodes[n].store.rows, p);
  }
}
