/**
 Strong convergence of any number of nodes: without collection, what a node
 stores for a path is the latest of all the writes to it that have reached the
 node, directly or through other nodes, in whatever order, however often, and
 in whatever pages they came.
 */
module Convergence {
  import opened Hlc
  import opened Path
  import opened Entry
  import opened Store
  import opened Transport
  import opened Node
  import opened AntiEntropy
  import opened NodeFacts
  import opened PageEffects
  import opened Cluster
  import opened ClusterInvariant

  /** The rows are exactly the latest known write of each known path. */
  ghost predicate RowsAreLatest(known: set<Meta>, rows: Rows)
  {
    && (forall p | p in rows :: Norm(rows[p]) in known)
    && (forall m | m in known :: m.path in rows && AtLeast(rows[m.path].version, m.version))
  }

  /** Each page entry is the latest write to its path that the peer knew. */
  ghost predicate EntriesAreLatest(past: set<Meta>, entries: seq<Meta>)
  {
    && (forall e | e in entries :: Norm(e) in past)
    && (forall e, m | e in entries && m in past && m.path == e.path :: AtLeast(e.version, m.version))
  }

  ghost predicate PhaseLatest(writes: set<Meta>, ph: Phase)
  {
    ph.Holding? ==> ph.past <= writes && EntriesAreLatest(ph.past, ph.page.entries)
  }

  ghost predicate NodeLatest(c: Cluster, n: string)
    requires n in c.nodes
  {
    Of(c.hist.known, n) <= c.hist.writes && RowsAreLatest(Of(c.hist.known, n), c.nodes[n].store.rows)
  }

  ghost predicate AllLatest(c: Cluster)
  {
    && (forall n | n in c.nodes :: NodeLatest(c, n))
    && (forall l | l in c.pulls :: PhaseLatest(c.hist.writes, c.pulls[l]))
  }

  predicate NoSweep(run: seq<Action>)
  {
    forall i | 0 <= i < |run| :: !run[i].Sweep?
  }

  /** The general step: a node's rows rise, and it comes to know its new rows and some writes now behind them. */
  lemma LatestGrows(known: set<Meta>, rows: Rows, rows': Rows, batch: seq<Meta>, heard: set<Meta>)
    requires RowsAreLatest(known, rows) && Rises(rows, rows') && WellFiled(rows')
    requires forall p | p in rows' && !Touches(batch, p) :: p in rows && rows'[p] == rows[p]
    requires forall m | m in heard :: m.path in rows' && AtLeast(rows'[m.path].version, m.version)
    ensures RowsAreLatest(known + StoredBy(rows', batch) + heard, rows')
  {
    var known' := known + StoredBy(rows', batch) + heard;
    forall p | p in rows' ensures Norm(rows'[p]) in known' {
      if Touches(batch, p) {
        assert Norm(rows'[p]) in StoredBy(rows', batch);
      }
    }
    forall m | m in known' ensures m.path in rows' && AtLeast(rows'[m.path].version, m.version) {
      if m in known {
        var r, r' := rows[m.path], rows'[m.path];
        AfterIsTotal(r'.version, r.version);
        AtLeastIsTransitive(r'.version, r.version, m.version);
      } else if m in StoredBy(rows', batch) {
        AfterIsTotal(m.version, m.version);
      }
    }
  }

  lemma UntouchedRows(cfg: Config, n: NodeState, entries: seq<Meta>, inputs: seq<Input>)
    requires |entries| == |inputs|
    ensures var a := ApplyRemote(cfg, n, entries, inputs);
            forall p | p in a.node.store.rows && !Touches(a.batch, p) ::
              p in n.store.rows && a.node.store.rows[p] == n.store.rows[p]
  {
    hide ApplyRemote;
    forall p { RowAfterPage(cfg, n, entries, inputs, p); }
  }

  /** What a node hears of from a page is behind the rows it ends with. */
  lemma HeardIsBehind(cfg: Config, n: NodeState, entries: seq<Meta>, inputs: seq<Input>, past: set<Meta>, m: Meta)
    requires PageReady(cfg, n, entries, inputs) && DistinctPaths(entries) && EntriesAreLatest(past, entries)
    requires m in past && m.path in AbsorbedPaths(cfg, n, entries, inputs)
    ensures var rows := ApplyRemote(cfg, n, entries, inputs).node.store.rows;
            m.path in rows && AtLeast(rows[m.path].version, m.version)
  {
    hide ApplyRemote, FateOf;
    var i :| 0 <= i < |entries| && entries[i].path == m.path &&
      (FateOf(cfg, n, entries, inputs, i).Stored? || FateOf(cfg, n, entries, inputs, i).Skipped?);
    AbsorbedIsReached(cfg, n, entries, inputs, i);
    var rows := ApplyRemote(cfg, n, entries, inputs).node.store.rows;
    AtLeastIsTransitive(rows[m.path].version, entries[i].version, m.version);
  }

  lemma StoredIsListed(writes: set<Meta>, rows: Rows, batch: seq<Meta>)
    requires Listed(writes, rows)
    ensures StoredBy(rows, batch) <= writes
  {
  }

  lemma NodeLatestOf(c: Cluster, n: string)
    requires AllLatest(c) && n in c.nodes
    ensures Of(c.hist.known, n) <= c.hist.writes && RowsAreLatest(Of(c.hist.known, n), c.nodes[n].store.rows)
  {
    assert NodeLatest(c, n);
    hide RowsAreLatest, Of;
  }

  lemma UntouchedByWrite(cfg: Config, n: NodeState, op: LocalOp, at: int64)
    requires WellFiled(n.store.rows)
    ensures var o := RunLocal(cfg, n, op, at);
            forall p | p in o.node.store.rows && !Touches(o.batch, p) ::
              p in n.store.rows && o.node.store.rows[p] == n.store.rows[p]
  {
    hide RunLocal, SanitizePath;
    WriteLands(cfg, n, op, at);
    var o := RunLocal(cfg, n, op, at);
    if o.batch != [] {
      assert LastIndex(o.batch, 1, op.path) == 0;
    }
  }

  lemma WriterLatest(w: World, c: Cluster, n: string, op: LocalOp, at: int64)
    requires Enabled(c, Write(n, op, at)) && n in w.limits
    requires AllLatest(c) && GoodWorld(w) && Inv(w, c)
    ensures var o := RunLocal(Cfg(w, n), c.nodes[n], op, at);
            var known' := Of(c.hist.known, n) + StoredBy(o.node.store.rows, o.batch);
            RowsAreLatest(known', o.node.store.rows) && known' <= c.hist.writes + Norms(o.batch)
  {
    hide RunLocal, Inv, NodeOk, Listed, FairBatch, Rises, OldFeedKept, RowsAreLatest, GoodWorld, StoredBy, Norms,
      AllLatest, Touches, Of;
    NodeOf(w, c, n);
    NodeLatestOf(c, n);
    var o, node := RunLocal(Cfg(w, n), c.nodes[n], op, at), c.nodes[n];
    FormedOf(node);
    UntouchedByWrite(Cfg(w, n), node, op, at);
    LocalWriteRises(Cfg(w, n), node, op, at);
    FormedOf(o.node);
    LocalBatchIsFair(w, c, n, op, at);
    StoredIsListed(c.hist.writes + Norms(o.batch), o.node.store.rows, o.batch);
    LatestGrows(Of(c.hist.known, n), node.store.rows, o.node.store.rows, o.batch, {});
    assert Of(c.hist.known, n) + StoredBy(o.node.store.rows, o.batch) + {}
        == Of(c.hist.known, n) + StoredBy(o.node.store.rows, o.batch);
  }

  lemma WriteKeepsLatest(w: World, c: Cluster, n: string, op: LocalOp, at: int64)
    requires GoodWorld(w) && Inv(w, c) && Enabled(c, Write(n, op, at)) && n in w.limits && AllLatest(c)
    ensures AllLatest(DoWrite(w, c, n, op, at))
  {
    hide RunLocal, Inv, RowsAreLatest, PhaseLatest, GoodWorld, StoredBy, Norms;
    WriterLatest(w, c, n, op, at);
    var c' := DoWrite(w, c, n, op, at);
    hide AllLatest;
    assert NodeLatest(c', n);
    LatestMove(c, c', n);
  }

  /** Only node n's rows and knowledge changed. */
  lemma LatestMove(c: Cluster, c': Cluster, n: string)
    requires AllLatest(c) && n in c'.nodes && NodeLatest(c', n)
    requires forall m | m in c'.nodes && m != n ::
               m in c.nodes && c'.nodes[m] == c.nodes[m] && Of(c'.hist.known, m) == Of(c.hist.known, m)
    requires c.hist.writes <= c'.hist.writes
    requires forall l | l in c'.pulls :: (l in c.pulls && c'.pulls[l] == c.pulls[l]) || !c'.pulls[l].Holding?
    ensures AllLatest(c')
  {
    hide RowsAreLatest, EntriesAreLatest;
    forall m | m in c'.nodes ensures NodeLatest(c', m) {
      if m != n {
        assert NodeLatest(c, m);
      }
    }
    forall l | l in c'.pulls ensures PhaseLatest(c'.hist.writes, c'.pulls[l]) {
      if l in c.pulls {
        assert PhaseLatest(c.hist.writes, c.pulls[l]);
      }
    }
  }

  /** What receiving a page teaches the puller. */
  ghost function Heard(cfg: Config, n: NodeState, h: Phase, inputs: seq<Input>): set<Meta>
    requires h.Holding? && |inputs| == |h.page.entries|
  {
    set m | m in h.past && m.path in AbsorbedPaths(cfg, n, h.page.entries, inputs) :: m
  }

  lemma ReceiveKnown(w: World, c: Cluster, l: Link, inputs: seq<Input>)
    requires Shape(w, c) && Enabled(c, Receive(l, inputs)) && c.pulls[l].page.entries != []
    ensures var h, cfg, n, c' := c.pulls[l], Cfg(w, l.puller), c.nodes[l.puller], DoReceive(w, c, l, inputs);
            var a := ApplyRemote(cfg, n, h.page.entries, inputs);
            && Of(c'.hist.known, l.puller)
            == Of(c.hist.known, l.puller) + StoredBy(a.node.store.rows, a.batch) + Heard(cfg, n, h, inputs)
            && (forall m | m in c.nodes && m != l.puller :: Of(c'.hist.known, m) == Of(c.hist.known, m))
  {
    hide ApplyRemote, StoredBy, AbsorbedPaths, RejectedRows, Norms, RoomForPage;
  }

  lemma ReceiveKeepsLatest(w: World, c: Cluster, l: Link, inputs: seq<Input>)
    requires Enabled(c, Receive(l, inputs)) && l.puller in w.limits
    requires AllLatest(c) && GoodWorld(w) && Inv(w, c)
    ensures AllLatest(DoReceive(w, c, l, inputs))
  {
    hide DoReceive, ApplyRemote, Inv, RoomForPage, RowsAreLatest, EntriesAreLatest, StoredBy, Heard, Norms, GoodWorld,
      AllLatest, Of;
    ShapeOf(w, c);
    LinkOf(w, c, l);
    hide Shape;
    var c' := DoReceive(w, c, l, inputs);
    NodeLatestOf(c, l.puller);
    if c.pulls[l].page.entries == [] {
      ReceiveNothing(w, c, l, inputs);
      LatestMove(c, c', l.puller);
    } else {
      ShapeOf(w, c);
      ReceiveShape(w, c, l, inputs);
      ReceiveKnown(w, c, l, inputs);
      PhaseLatestOf(c, l);
      PullerLatest(w, c, l, inputs);
      LatestMove(c, c', l.puller);
    }
  }

  lemma PhaseLatestOf(c: Cluster, l: Link)
    requires AllLatest(c) && l in c.pulls
    ensures PhaseLatest(c.hist.writes, c.pulls[l])
  {
    hide PhaseLatest, NodeLatest;
  }

  lemma PullerLatest(w: World, c: Cluster, l: Link, inputs: seq<Input>)
    requires Enabled(c, Receive(l, inputs)) && l.puller in w.limits
    requires NodeLatest(c, l.puller) && PhaseLatest(c.hist.writes, c.pulls[l])
    requires GoodWorld(w) && Inv(w, c)
    ensures var h, cfg, n := c.pulls[l], Cfg(w, l.puller), c.nodes[l.puller];
            var a := ApplyRemote(cfg, n, h.page.entries, inputs);
            var known' := Of(c.hist.known, l.puller) + StoredBy(a.node.store.rows, a.batch) + Heard(cfg, n, h, inputs);
            RowsAreLatest(known', a.node.store.rows) && known' <= c.hist.writes + Norms(a.batch)
  {
    hide ApplyRemote, Inv, RowsAreLatest, EntriesAreLatest, Norms, AbsorbedPaths, RoomForPage, NodeOk, Rises, Listed,
      FairBatch, OldFeedKept, StoredBy;
    ShapeOf(w, c);
    NodeOf(w, c, l.puller);
    PhaseOf(w, c, l);
    var h, cfg, n := c.pulls[l], Cfg(w, l.puller), c.nodes[l.puller];
    var a := ApplyRemote(cfg, n, h.page.entries, inputs);
    PageRises(cfg, n, h.page.entries, inputs);
    FormedOf(a.node);
    UntouchedRows(cfg, n, h.page.entries, inputs);
    PageBatchIsFair(w, c, l, inputs);
    StoredIsListed(c.hist.writes + Norms(a.batch), a.node.store.rows, a.batch);
    forall m | m in Heard(cfg, n, h, inputs)
      ensures m.path in a.node.store.rows && AtLeast(a.node.store.rows[m.path].version, m.version)
    {
      HeardIsBehind(cfg, n, h.page.entries, inputs, h.past, m);
    }
    LatestGrows(Of(c.hist.known, l.puller), n.store.rows, a.node.store.rows, a.batch, Heard(cfg, n, h, inputs));
  }

  lemma ServedIsLatest(st: StoreState, known: set<Meta>, cursor: int)
    requires WellFormed(st) && RowsAreLatest(known, st.rows)
    ensures EntriesAreLatest(known, GetManifest(st.rows, cursor).entries)
  {
    ManifestIsPage(st, cursor);
    hide GetManifest, Delivered;
    var entries := GetManifest(st.rows, cursor).entries;
    forall e | e in entries ensures e.path in st.rows && st.rows[e.path] == e {
      var i :| 0 <= i < |entries| && entries[i] == e;
    }
  }

  lemma AskKeepsLatest(w: World, c: Cluster, l: Link)
    requires Inv(w, c) && Enabled(c, Ask(l)) && AllLatest(c) && c.nodes.Keys == w.limits.Keys
    ensures AllLatest(Do(w, c, Ask(l)))
  {
    hide Inv, RowsAreLatest, EntriesAreLatest, GetManifest;
    NodeOf(w, c, l.peer);
    assert NodeLatest(c, l.peer);
    ServedIsLatest(c.nodes[l.peer].store, c.hist.known[l.peer], c.pulls[l].cursor);
    var c' := Do(w, c, Ask(l));
    forall n | n in c'.nodes ensures NodeLatest(c', n) {
      assert NodeLatest(c, n);
    }
  }

  lemma QuietKeepsLatest(c: Cluster, c': Cluster)
    requires AllLatest(c)
    requires c'.hist == c.hist && c'.nodes.Keys == c.nodes.Keys
    requires forall n | n in c.nodes :: c'.nodes[n].store.rows == c.nodes[n].store.rows
    requires forall l | l in c'.pulls :: (l in c.pulls && c'.pulls[l] == c.pulls[l]) || !c'.pulls[l].Holding?
    ensures AllLatest(c')
  {
    hide RowsAreLatest, EntriesAreLatest;
    forall n | n in c'.nodes ensures NodeLatest(c', n) {
      assert NodeLatest(c, n);
    }
  }

  lemma ActionKeepsLatest(w: World, c: Cluster, a: Action)
    requires GoodWorld(w) && Inv(w, c) && Enabled(c, a) && c.nodes.Keys == w.limits.Keys
    requires AllLatest(c) && !a.Sweep?
    ensures AllLatest(Do(w, c, a))
  {
    hide Inv, GoodWorld, AllLatest, DoWrite, DoReceive, RoomForPage, GetManifest;
    match a
    case Write(n, op, at) => WriteKeepsLatest(w, c, n, op, at);
    case Receive(l, inputs) => ReceiveKeepsLatest(w, c, l, inputs);
    case Ask(l) => AskKeepsLatest(w, c, l);
    case Greet(l) => QuietKeepsLatest(c, Do(w, c, a));
    case Compare(l) => QuietKeepsLatest(c, Do(w, c, a));
    case Record(l) => QuietKeepsLatest(c, Do(w, c, a));
    case Abort(l) => QuietKeepsLatest(c, Do(w, c, a));
  }

  lemma {:induction false} RunKeepsLatest(w: World, c: Cluster, run: seq<Action>)
    requires GoodWorld(w) && Inv(w, c) && Legal(w, c, run) && NoSweep(run) && AllLatest(c)
    ensures AllLatest(Run(w, c, run))
    decreases |run|
  {
    hide Do, Inv, Enabled, GoodWorld, AllLatest;
    if run != [] {
      ActionKeepsInv(w, c, run[0]);
      ActionKeepsLatest(w, c, run[0]);
      RunKeepsLatest(w, Do(w, c, run[0]), run[1..]);
    }
  }

  /** The writes to p that have reached node n. */
  ghost function KnownAt(c: Cluster, n: string, p: string): set<Meta>
  {
    set m | m in Of(c.hist.known, n) && m.path == p :: m
  }

  /** m is the latest of a set of writes. */
  ghost predicate IsLatest(known: set<Meta>, m: Meta)
  {
    m in known && forall x | x in known :: AtLeast(m.version, x.version)
  }

  /**
   Strong convergence. On every run without collection, each node's row for a
   path is the latest write to it among those that reached the node, and there is
   no row exactly when none reached it. So two nodes that know the same writes to
   a path hold the same row for it, feed position apart.
   */
  lemma StrongConvergence(w: World, c0: Cluster, run: seq<Action>, a: string, b: string, p: string)
    requires GoodWorld(w) && Init(w, c0) && Legal(w, c0, run) && NoSweep(run)
    requires var c := Run(w, c0, run); a in c.nodes && b in c.nodes
    ensures var c := Run(w, c0, run);
            var ra, rb := c.nodes[a].store.rows, c.nodes[b].store.rows;
            && (p in ra <==> KnownAt(c, a, p) != {})
            && (p in ra ==> IsLatest(KnownAt(c, a, p), Norm(ra[p])))
            && (KnownAt(c, a, p) == KnownAt(c, b, p) ==>
                  (p in ra <==> p in rb) && (p in ra ==> Norm(ra[p]) == Norm(rb[p])))
  {
    hide Legal, Run;
    InitIsInv(w, c0);
    InitIsLatest(w, c0);
    RunKeepsInv(w, c0, run);
    RunKeepsLatest(w, c0, run);
    var c := Run(w, c0, run);
    hide Init, GoodWorld;
    UniqueOf(w, c);
    hide Inv;
    LatestRow(c, a, p);
    LatestRow(c, b, p);
    if KnownAt(c, a, p) == KnownAt(c, b, p) && p in c.nodes[a].store.rows {
      var ma, mb := Norm(c.nodes[a].store.rows[p]), Norm(c.nodes[b].store.rows[p]);
      AfterIsTotal(ma.version, mb.version);
    }
  }

  lemma InitIsLatest(w: World, c: Cluster)
    requires Init(w, c)
    ensures AllLatest(c)
  {
  }

  lemma UniqueOf(w: World, c: Cluster)
    requires Inv(w, c)
    ensures UniqueVersions(c.hist.writes) && forall n | n in c.nodes :: WellFiled(c.nodes[n].store.rows)
  {
  }

  lemma LatestRow(c: Cluster, n: string, p: string)
    requires AllLatest(c) && n in c.nodes && WellFiled(c.nodes[n].store.rows)
    ensures var rows := c.nodes[n].store.rows;
            && (p in rows <==> KnownAt(c, n, p) != {})
            && (p in rows ==> IsLatest(KnownAt(c, n, p), Norm(rows[p])) && Norm(rows[p]) in c.hist.writes)
  {
    assert NodeLatest(c, n);
    var rows := c.nodes[n].store.rows;
    if p in rows {
      assert Norm(rows[p]) in KnownAt(c, n, p);
    }
    if KnownAt(c, n, p) != {} {
      var m :| m in KnownAt(c, n, p);
    }
  }
}
