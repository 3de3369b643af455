/** What holds in every reachable state of a cluster, collection included. */
module ClusterInvariant {
  import opened Hlc
  import opened Path
  import opened Entry
  import opened Store
  import opened Transport
  import opened Digest
  import opened Node
  import opened AntiEntropy
  import opened NodeFacts
  import opened PageEffects
  import opened Cluster

  ghost predicate Listed(writes: set<Meta>, rows: Rows)
  {
    forall p | p in rows :: Norm(rows[p]) in writes
  }

  /** A write was stamped by its origin's clock, which has not gone back since. */
  ghost predicate WriteOk(nodes: map<string, NodeState>, m: Meta)
  {
    && m.pos == 0
    && m.version.origin in nodes
    && NotBefore(nodes[m.version.origin].clock, m.version.hlc)
    && NulFree(m)
  }

  /** A version names one write. */
  ghost predicate UniqueVersions(writes: set<Meta>)
  {
    forall a, b | a in writes && b in writes && a.version == b.version :: a == b
  }

  ghost predicate WritesOk(nodes: map<string, NodeState>, writes: set<Meta>)
  {
    UniqueVersions(writes) && forall m | m in writes :: WriteOk(nodes, m)
  }

  /** Rows of the peer at or below upto are still among those seen. */
  ghost predicate StillThere(peer: StoreState, since: int, upto: int, seen: Rows)
  {
    && upto <= peer.head
    && forall p | p in peer.rows && since < peer.rows[p].pos <= upto :: p in seen && seen[p] == peer.rows[p]
  }

  ghost predicate StillPaged(peer: StoreState, since: int, page: Page)
  {
    && page.head <= peer.head
    && Delivered(peer.rows, since, page.head, page.entries)
  }

  ghost predicate PageOk(writes: set<Meta>, since: int, page: Page)
  {
    && IsAscending(since, page.entries)
    && DistinctPaths(page.entries)
    && page.head == HeadOf(since, page.entries)
    && forall i | 0 <= i < |page.entries| :: page.entries[i].pos > 0 && Norm(page.entries[i]) in writes
  }

  ghost predicate PhaseOk(sha: string -> string, peer: StoreState, writes: set<Meta>, ph: Phase)
  {
    match ph
    case Greeted(digest, head, tree) =>
      && WellFiled(tree) && Listed(writes, tree) && digest == DigestOf(sha, tree)
      && head >= 0 && StillThere(peer, 0, head, tree)
    case Asking(cursor, _) => cursor <= peer.head
    case Holding(cursor, _, page, _) => PageOk(writes, cursor, page) && StillPaged(peer, cursor, page)
    case Recording(cursor, _, _) => cursor <= peer.head
  }

  ghost predicate Shape(w: World, c: Cluster)
  {
    && c.nodes.Keys == w.limits.Keys == c.hist.known.Keys
    && c.hist.rejected.Keys == c.nodes.Keys
    && forall l | l in c.pulls :: l.puller in c.nodes && l.peer in c.nodes && l.puller != l.peer
  }

  ghost predicate NodesOk(nodes: map<string, NodeState>, writes: set<Meta>)
  {
    forall n | n in nodes :: NodeOk(nodes[n]) && Listed(writes, nodes[n].store.rows)
  }

  ghost predicate PullsOk(w: World, c: Cluster)
    requires Shape(w, c)
  {
    forall l | l in c.pulls :: PhaseOk(w.sha, c.nodes[l.peer].store, c.hist.writes, c.pulls[l])
  }

  ghost predicate Inv(w: World, c: Cluster)
  {
    && Shape(w, c)
    && NodesOk(c.nodes, c.hist.writes)
    && WritesOk(c.nodes, c.hist.writes)
    && PullsOk(w, c)
  }

  /* ----- a node moves ----- */

  /** m was stamped during this very step. */
  predicate Fresh(n: string, before: NodeState, after: NodeState, m: Meta)
  {
    && m.version.origin == n
    && Precedes(before.clock, m.version.hlc)
    && NotBefore(after.clock, m.version.hlc)
  }

  /** What a step of one node may commit: writes that exist, and fresh ones with versions of their own. */
  ghost predicate FairBatch(writes: set<Meta>, n: string, before: NodeState, after: NodeState, batch: seq<Meta>)
  {
    && (forall i | 0 <= i < |batch| ::
          Norm(batch[i]) in writes || (Fresh(n, before, after, batch[i]) && NulFree(batch[i])))
    && (forall i, j | 0 <= i < j < |batch| ::
          Norm(batch[j]) in writes || batch[i].version != batch[j].version)
  }

  lemma MoveKeepsWrites(nodes: map<string, NodeState>, writes: set<Meta>, n: string, after: NodeState, batch: seq<Meta>)
    requires WritesOk(nodes, writes) && n in nodes
    requires NotBefore(after.clock, nodes[n].clock)
    requires FairBatch(writes, n, nodes[n], after, batch)
    ensures WritesOk(nodes[n := after], writes + Norms(batch))
  {
    var writes' := writes + Norms(batch);
    forall m | m in writes' ensures WriteOk(nodes[n := after], m) {
      if m in writes {
        assert WriteOk(nodes, m);
      } else {
        var i :| 0 <= i < |batch| && m == Norm(batch[i]);
      }
    }
    forall a, b | a in writes' && b in writes' && a.version == b.version ensures a == b {
      if a !in writes && b !in writes {
        var i :| 0 <= i < |batch| && a == Norm(batch[i]);
        var j :| 0 <= j < |batch| && b == Norm(batch[j]);
        assert i == j;
      }
    }
  }

  lemma PhaseSurvives(sha: string -> string, peer: StoreState, peer': StoreState, writes: set<Meta>, writes': set<Meta>,
                      ph: Phase)
    requires PhaseOk(sha, peer, writes, ph)
    requires OldFeedKept(peer, peer') && writes <= writes'
    ensures PhaseOk(sha, peer', writes', ph)
  {
  }

  /** The general step: one node moves within its rules; every other node and pull stays as it was. */
  lemma MoveKeepsInv(w: World, c: Cluster, n: string, after: NodeState, batch: seq<Meta>, c': Cluster)
    requires Inv(w, c) && n in c.nodes && Shape(w, c')
    requires NodeOk(after) && NotBefore(after.clock, c.nodes[n].clock)
    requires OldFeedKept(c.nodes[n].store, after.store)
    requires FairBatch(c.hist.writes, n, c.nodes[n], after, batch)
    requires Listed(c.hist.writes + Norms(batch), after.store.rows)
    requires c'.nodes == c.nodes[n := after] && c'.hist.writes == c.hist.writes + Norms(batch)
    requires forall l | l in c'.pulls :: (l in c.pulls && c'.pulls[l] == c.pulls[l])
                                         || PhaseOk(w.sha, c'.nodes[l.peer].store, c'.hist.writes, c'.pulls[l])
    ensures Inv(w, c')
  {
    MoveKeepsWrites(c.nodes, c.hist.writes, n, after, batch);
    MoveKeepsPulls(w, c, n, after.store, c');
    hide FairBatch, WritesOk, OldFeedKept, PullsOk, Shape, NodeOk;
  }

  lemma MoveKeepsPulls(w: World, c: Cluster, n: string, after: StoreState, c': Cluster)
    requires Shape(w, c) && PullsOk(w, c) && n in c.nodes && Shape(w, c')
    requires OldFeedKept(c.nodes[n].store, after)
    requires c'.nodes == c.nodes[n := c'.nodes[n]] && c'.nodes[n].store == after && c.hist.writes <= c'.hist.writes
    requires forall l | l in c'.pulls :: (l in c.pulls && c'.pulls[l] == c.pulls[l])
                                         || PhaseOk(w.sha, c'.nodes[l.peer].store, c'.hist.writes, c'.pulls[l])
    ensures PullsOk(w, c')
  {
    hide OldFeedKept, PhaseOk;
    forall l | l in c'.pulls ensures PhaseOk(w.sha, c'.nodes[l.peer].store, c'.hist.writes, c'.pulls[l]) {
      if l in c.pulls && c'.pulls[l] == c.pulls[l] {
        OldFeedIsKept(c.nodes[l.peer].store);
        PhaseSurvives(w.sha, c.nodes[l.peer].store, c'.nodes[l.peer].store, c.hist.writes, c'.hist.writes, c.pulls[l]);
      }
    }
  }

  lemma OldFeedIsKept(st: StoreState)
    ensures OldFeedKept(st, st)
  {
  }

  /* ----- local writes ----- */

  lemma LocalBatchIsFair(w: World, c: Cluster, n: string, op: LocalOp, at: int64)
    requires GoodWorld(w) && Inv(w, c) && Enabled(c, Write(n, op, at))
    ensures var o := RunLocal(Cfg(w, n), c.nodes[n], op, at);
            && FairBatch(c.hist.writes, n, c.nodes[n], o.node, o.batch)
            && Listed(c.hist.writes + Norms(o.batch), o.node.store.rows)
  {
    hide RunLocal, SanitizePath, PullsOk, WritesOk;
    var cfg, node := Cfg(w, n), c.nodes[n];
    var o := RunLocal(cfg, node, op, at);
    WriteLands(cfg, node, op, at);
    TickAdvances(node.clock, at);
    if o.batch != [] {
      forall p | p in node.store.rows ensures NulFree(node.store.rows[p]) {
        RowIsNulFree(c.nodes, c.hist.writes, n, p);
      }
      LocalWriteIsNulFree(cfg, node, op, at);
      OneWriteIsFair(c.hist.writes, n, node, o.node, o.batch);
    }
  }

  lemma RowIsNulFree(nodes: map<string, NodeState>, writes: set<Meta>, n: string, p: string)
    requires NodesOk(nodes, writes) && WritesOk(nodes, writes) && n in nodes && p in nodes[n].store.rows
    ensures NulFree(nodes[n].store.rows[p])
    ensures nodes[n].store.rows[p].version.origin in nodes
  {
    assert WriteOk(nodes, Norm(nodes[n].store.rows[p]));
  }

  lemma OneWriteIsFair(writes: set<Meta>, n: string, before: NodeState, after: NodeState, batch: seq<Meta>)
    requires |batch| == 1 && Fresh(n, before, after, batch[0]) && NulFree(batch[0])
    requires Listed(writes, before.store.rows)
    requires after.store.rows == before.store.rows[batch[0].path := batch[0].(pos := before.store.head + 1)]
    ensures FairBatch(writes, n, before, after, batch)
    ensures Listed(writes + Norms(batch), after.store.rows)
  {
    hide NulFree;
    assert Norm(batch[0]) in Norms(batch);
    forall p | p in after.store.rows ensures Norm(after.store.rows[p]) in writes + Norms(batch) {
      if p != batch[0].path {
        assert Norm(before.store.rows[p]) in writes;
      }
    }
  }

  lemma LocalWriteIsNulFree(cfg: Config, n: NodeState, op: LocalOp, at: int64)
    requires forall content :: !Has(cfg.hash(content), NUL)
    requires !Has(cfg.node, NUL) && forall p | p in n.store.rows :: NulFree(n.store.rows[p])
    requires WellFiled(n.store.rows)
    requires RunLocal(cfg, n, op, at).batch != []
    ensures NulFree(RunLocal(cfg, n, op, at).batch[0])
  {
    hide Apply, WithBlob, Clean, Split;
  }

  /* ----- pages ----- */

  lemma PageBatchIsFair(w: World, c: Cluster, l: Link, inputs: seq<Input>)
    requires GoodWorld(w) && Inv(w, c) && Enabled(c, Receive(l, inputs))
    ensures var a := ApplyRemote(Cfg(w, l.puller), c.nodes[l.puller], c.pulls[l].page.entries, inputs);
            && FairBatch(c.hist.writes, l.puller, c.nodes[l.puller], a.node, a.batch)
            && Listed(c.hist.writes + Norms(a.batch), a.node.store.rows)
  {
    var cfg, n, entries := Cfg(w, l.puller), c.nodes[l.puller], c.pulls[l].page.entries;
    assert PhaseOk(w.sha, c.nodes[l.peer].store, c.hist.writes, c.pulls[l]);
    BatchFacts(cfg, n, entries, inputs);
    var a := ApplyRemote(cfg, n, entries, inputs);
    forall p | p in a.node.store.rows ensures Norm(a.node.store.rows[p]) in c.hist.writes + Norms(a.batch) {
      hide AccAt, Apply, PullsOk;
      RowAfterPage(cfg, n, entries, inputs, p);
      var i := LastIndex(a.batch, |a.batch|, p);
      if i >= 0 {
        assert Norm(a.batch[i]) in Norms(a.batch);
      }
    }
    BatchElementsAreFair(w, c, l, a.batch, AccAt(cfg, n, entries, inputs, |entries|), a.node);
  }

  lemma BatchElementsAreFair(w: World, c: Cluster, l: Link, batch: seq<Meta>, acc: Acc, after: NodeState)
    requires GoodWorld(w) && Inv(w, c) && l in c.pulls && c.pulls[l].Holding?
    requires BatchOk(Cfg(w, l.puller), c.nodes[l.puller], c.pulls[l].page.entries, |c.pulls[l].page.entries|, acc)
    requires batch == acc.batch && after.clock == acc.clock
    ensures FairBatch(c.hist.writes, l.puller, c.nodes[l.puller], after, batch)
  {
    var cfg, n, entries := Cfg(w, l.puller), c.nodes[l.puller], c.pulls[l].page.entries;
    PhaseOf(w, c, l);
    assert entries[..|entries|] == entries;
    hide Valid, PullsOk, CopyOf, ConflictName, NodesOk, WritesOk, NulFree;
    forall i | 0 <= i < |batch|
      ensures Norm(batch[i]) in c.hist.writes || (Fresh(l.puller, n, after, batch[i]) && NulFree(batch[i]))
      ensures Taken(cfg, n.store.rows, entries, |entries|, batch[i]) ==> Norm(batch[i]) in c.hist.writes
    {
      ElementIsFair(w, c, l, batch[i], after);
    }
    hide Taken, IsCopy, PhaseOk;
  }

  lemma ElementIsFair(w: World, c: Cluster, l: Link, m: Meta, after: NodeState)
    requires GoodWorld(w) && Inv(w, c) && l in c.pulls && c.pulls[l].Holding?
    requires NotBefore(after.clock, m.version.hlc)
    requires var cfg, n, entries := Cfg(w, l.puller), c.nodes[l.puller], c.pulls[l].page.entries;
             Taken(cfg, n.store.rows, entries, |entries|, m) || IsCopy(cfg, n, entries, |entries|, m)
    ensures var cfg, n, entries := Cfg(w, l.puller), c.nodes[l.puller], c.pulls[l].page.entries;
            && (Norm(m) in c.hist.writes || (Fresh(l.puller, n, after, m) && NulFree(m)))
            && (Taken(cfg, n.store.rows, entries, |entries|, m) ==> Norm(m) in c.hist.writes)
  {
    var cfg, n, entries := Cfg(w, l.puller), c.nodes[l.puller], c.pulls[l].page.entries;
    PhaseOf(w, c, l);
    assert entries[..|entries|] == entries;
    hide Valid, PullsOk, NodesOk, WritesOk, NulFree;
    if !Taken(cfg, n.store.rows, entries, |entries|, m) {
      CopyIsFair(w, c, l, m);
    } else {
      assert m in entries;
    }
  }

  lemma PhaseOf(w: World, c: Cluster, l: Link)
    requires Shape(w, c) && PullsOk(w, c) && l in c.pulls
    ensures PhaseOk(w.sha, c.nodes[l.peer].store, c.hist.writes, c.pulls[l])
  {
  }

  lemma CopyIsFair(w: World, c: Cluster, l: Link, m: Meta)
    requires GoodWorld(w) && Inv(w, c) && l in c.pulls && c.pulls[l].Holding?
    requires var entries := c.pulls[l].page.entries;
             IsCopy(Cfg(w, l.puller), c.nodes[l.puller], entries, |entries|, m)
    ensures m.version.origin == l.puller && NulFree(m)
  {
    hide PullsOk, WritesOk, NodesOk;
    var entries, rows := c.pulls[l].page.entries, c.nodes[l.puller].store.rows;
    var e :| e in entries[..|entries|] && IsCopyOf(Cfg(w, l.puller), rows, m, e.path);
    var local := rows[e.path];
    RowIsNulFree(c.nodes, c.hist.writes, l.puller, e.path);
    ConflictNameIsNulFree(local.path, local.version.origin, local.version.hlc.wall);
  }

  /* ----- every action keeps the invariant ----- */

  lemma ShapeOf(w: World, c: Cluster)
    requires Inv(w, c)
    ensures Shape(w, c) && PullsOk(w, c)
  {
  }

  lemma NodeOf(w: World, c: Cluster, n: string)
    requires Inv(w, c) && n in c.nodes
    ensures NodeOk(c.nodes[n]) && Listed(c.hist.writes, c.nodes[n].store.rows)
    ensures Shape(w, c)
  {
  }

  lemma WriteKeepsInv(w: World, c: Cluster, n: string, op: LocalOp, at: int64)
    requires GoodWorld(w) && Inv(w, c) && Enabled(c, Write(n, op, at))
    ensures Inv(w, DoWrite(w, c, n, op, at))
  {
    hide RunLocal, FairBatch, Inv, NodeOk, OldFeedKept, Listed, StoredBy, PhaseOk, GoodWorld, Norms;
    NodeOf(w, c, n);
    var o := RunLocal(Cfg(w, n), c.nodes[n], op, at);
    LocalBatchIsFair(w, c, n, op, at);
    LocalWriteRises(Cfg(w, n), c.nodes[n], op, at);
    MoveKeepsInv(w, c, n, o.node, o.batch, DoWrite(w, c, n, op, at));
  }

  /** What a local write changes. */
  lemma WriteShape(w: World, c: Cluster, n: string, op: LocalOp, at: int64)
    requires Shape(w, c) && n in c.nodes
    ensures var o, c' := RunLocal(Cfg(w, n), c.nodes[n], op, at), DoWrite(w, c, n, op, at);
            && c'.nodes == c.nodes[n := o.node] && c'.pulls == c.pulls
            && c'.hist.writes == c.hist.writes + Norms(o.batch)
            && c'.hist.rejected == c.hist.rejected
            && Shape(w, c')
  {
    hide RunLocal, StoredBy, Norms;
  }

  /** What receiving a non-empty page changes. */
  lemma ReceiveShape(w: World, c: Cluster, l: Link, inputs: seq<Input>)
    requires Shape(w, c) && Enabled(c, Receive(l, inputs)) && c.pulls[l].page.entries != []
    ensures var h, c' := c.pulls[l], DoReceive(w, c, l, inputs);
            var a := ApplyRemote(Cfg(w, l.puller), c.nodes[l.puller], h.page.entries, inputs);
            && c'.nodes == c.nodes[l.puller := a.node]
            && c'.hist.writes == c.hist.writes + Norms(a.batch)
            && c'.hist.held == c.hist.held
            && c'.pulls == c.pulls[l := Recording(h.page.head, Max(h.bookmark, a.safe), h.page.more)]
            && Shape(w, c')
  {
    hide ApplyRemote, StoredBy, AbsorbedPaths, RejectedRows, Norms, RoomForPage;
  }

  lemma ReceiveNothing(w: World, c: Cluster, l: Link, inputs: seq<Input>)
    requires Enabled(c, Receive(l, inputs)) && l.puller in w.limits && c.pulls[l].page.entries == []
    ensures DoReceive(w, c, l, inputs) == c.(pulls := c.pulls - {l})
  {
    hide ApplyRemote, StoredBy, AbsorbedPaths, RejectedRows, Norms, RoomForPage;
  }

  lemma ReceiveKeepsInv(w: World, c: Cluster, l: Link, inputs: seq<Input>)
    requires GoodWorld(w) && Inv(w, c) && Enabled(c, Receive(l, inputs))
    ensures Inv(w, DoReceive(w, c, l, inputs))
  {
    hide ApplyRemote, FairBatch, Inv, NodeOk, OldFeedKept, Listed, Norms, GoodWorld, RoomForPage, Shape, DoReceive;
    ShapeOf(w, c);
    LinkOf(w, c, l);
    var h, n := c.pulls[l], c.nodes[l.puller];
    if h.page.entries == [] {
      ReceiveNothing(w, c, l, inputs);
      DropPullKeepsInv(w, c, l);
    } else {
      ReceiveShape(w, c, l, inputs);
      var c' := DoReceive(w, c, l, inputs);
      NodeOf(w, c, l.puller);
      PhaseOf(w, c, l);
      PageBatchIsFair(w, c, l, inputs);
      PageRises(Cfg(w, l.puller), n, h.page.entries, inputs);
      BatchFacts(Cfg(w, l.puller), n, h.page.entries, inputs);
      var a := ApplyRemote(Cfg(w, l.puller), n, h.page.entries, inputs);
      MoveKeepsInv(w, c, l.puller, a.node, a.batch, c');
    }
  }

  lemma LinkOf(w: World, c: Cluster, l: Link)
    requires Shape(w, c) && l in c.pulls
    ensures l.puller in c.nodes && l.peer in c.nodes && l.puller != l.peer
    ensures l.puller in w.limits && l.peer in w.limits
  {
  }

  lemma DropPullKeepsInv(w: World, c: Cluster, l: Link)
    requires Inv(w, c)
    ensures Inv(w, c.(pulls := c.pulls - {l}))
  {
    hide PhaseOk, WritesOk, NodesOk;
  }

  /** Only the pulls change, and the changed ones are sound. */
  lemma PullStepKeepsInv(w: World, c: Cluster, l: Link, ph: Phase)
    requires Inv(w, c) && l.puller in c.nodes && l.peer in c.nodes && l.puller != l.peer
    requires PhaseOk(w.sha, c.nodes[l.peer].store, c.hist.writes, ph)
    ensures Inv(w, c.(pulls := c.pulls[l := ph]))
  {
    hide PhaseOk, WritesOk, NodesOk;
  }

  /** A step that commits nothing and loses or keeps rows: collection, or a bookmark. */
  lemma QuietMoveKeepsInv(w: World, c: Cluster, n: string, after: NodeState)
    requires Inv(w, c) && n in c.nodes
    requires NodeOk(after) && after.clock == c.nodes[n].clock
    requires OldFeedKept(c.nodes[n].store, after.store)
    requires Listed(c.hist.writes, after.store.rows)
    ensures Inv(w, c.(nodes := c.nodes[n := after]))
  {
    hide OldFeedKept, NodeOk, Listed, Inv;
    ShapeOf(w, c);
    assert Norms([]) == {};
    assert c.hist.writes + Norms([]) == c.hist.writes;
    MoveKeepsInv(w, c, n, after, [], c.(nodes := c.nodes[n := after]));
  }

  /** Making a bookmark durable touches nothing the invariant speaks of. */
  lemma BookmarkKeepsInv(w: World, c: Cluster, l: Link, bookmark: int)
    requires Inv(w, c) && l.puller in c.nodes
    ensures Inv(w, SetBookmark(c, l, bookmark))
  {
    hide Inv, UniqueSeqs;
    NodeOf(w, c, l.puller);
    QuietMoveKeepsInv(w, c, l.puller, WithBookmark(c.nodes[l.puller], l.peer, bookmark));
  }

  lemma CollectKeepsNode(n: NodeState, horizon: int)
    requires NodeOk(n)
    ensures NodeOk(Collect(n, horizon)) && OldFeedKept(n.store, Collect(n, horizon).store)
  {
  }

  lemma SweepKeepsInv(w: World, c: Cluster, n: string, horizon: int)
    requires Inv(w, c) && n in c.nodes
    ensures Inv(w, c.(nodes := c.nodes[n := Collect(c.nodes[n], horizon)]))
  {
    hide Inv, NodeOk;
    NodeOf(w, c, n);
    CollectKeepsNode(c.nodes[n], horizon);
    hide OldFeedKept;
    QuietMoveKeepsInv(w, c, n, Collect(c.nodes[n], horizon));
  }

  lemma {:induction false} HighestPosBounds(st: StoreState, all: seq<Meta>, n: nat)
    requires WellFormed(st) && n <= |all| && AreRows(st.rows, all)
    ensures 0 <= HighestPos(all, n) <= st.head
    ensures forall i | 0 <= i < n :: all[i].pos <= HighestPos(all, n)
  {
    if n > 0 {
      HighestPosBounds(st, all, n - 1);
    }
  }

  /** The head a digest reply carries: no row is above it, and it is not above the feed counter. */
  lemma DigestHeadIsSound(st: StoreState)
    requires WellFormed(st)
    ensures var head := HighestPos(All(st.rows), |All(st.rows)|);
            0 <= head && StillThere(st, 0, head, st.rows) && forall p | p in st.rows :: st.rows[p].pos <= head
  {
    SortedIsComplete(st.rows, st.rows.Keys);
    HighestPosBounds(st, All(st.rows), |All(st.rows)|);
    forall p | p in st.rows ensures st.rows[p].pos <= HighestPos(All(st.rows), |All(st.rows)|) {
      var i :| 0 <= i < |All(st.rows)| && All(st.rows)[i] == st.rows[p];
    }
  }

  lemma ServedPageIsSound(st: StoreState, writes: set<Meta>, cursor: int)
    requires WellFormed(st) && Listed(writes, st.rows) && cursor <= st.head
    ensures var page := GetManifest(st.rows, cursor);
            PageOk(writes, cursor, page) && StillPaged(st, cursor, page)
  {
    ManifestIsPage(st, cursor);
    var page := GetManifest(st.rows, cursor);
    hide GetManifest, Delivered;
    forall i | 0 <= i < |page.entries| ensures page.entries[i].pos > 0 && Norm(page.entries[i]) in writes {
      assert st.rows[page.entries[i].path] == page.entries[i];
    }
  }

  lemma GreetKeepsInv(w: World, c: Cluster, l: Link)
    requires Inv(w, c) && Enabled(c, Greet(l))
    ensures var rows := c.nodes[l.peer].store.rows;
            Inv(w, c.(pulls := c.pulls[l := Greeted(DigestOf(w.sha, rows), HighestPos(All(rows), |All(rows)|), rows)]))
  {
    hide Inv, UniqueSeqs;
    NodeOf(w, c, l.peer);
    var rows := c.nodes[l.peer].store.rows;
    DigestHeadIsSound(c.nodes[l.peer].store);
    PullStepKeepsInv(w, c, l, Greeted(DigestOf(w.sha, rows), HighestPos(All(rows), |All(rows)|), rows));
  }

  lemma AskKeepsInv(w: World, c: Cluster, l: Link)
    requires Inv(w, c) && Enabled(c, Ask(l))
    ensures var page := GetManifest(c.nodes[l.peer].store.rows, c.pulls[l].cursor);
            var held := Holding(c.pulls[l].cursor, c.pulls[l].bookmark, page, c.hist.known[l.peer]);
            Inv(w, c.(pulls := c.pulls[l := held]))
  {
    hide Inv, PageOk, StillPaged, GetManifest;
    ShapeOf(w, c);
    NodeOf(w, c, l.peer);
    PhaseOf(w, c, l);
    ServedPageIsSound(c.nodes[l.peer].store, c.hist.writes, c.pulls[l].cursor);
    var page := GetManifest(c.nodes[l.peer].store.rows, c.pulls[l].cursor);
    PullStepKeepsInv(w, c, l, Holding(c.pulls[l].cursor, c.pulls[l].bookmark, page, c.hist.known[l.peer]));
  }

  lemma ActionKeepsInv(w: World, c: Cluster, a: Action)
    requires GoodWorld(w) && Inv(w, c) && Enabled(c, a)
    ensures Inv(w, Do(w, c, a))
  {
    hide Inv, DoWrite, DoReceive, DoCompare, DoRecord, GoodWorld, Collect;
    ShapeOf(w, c);
    match a
    case Write(n, op, at) => WriteKeepsInv(w, c, n, op, at);
    case Receive(l, inputs) => ReceiveKeepsInv(w, c, l, inputs);
    case Sweep(n, horizon) => SweepKeepsInv(w, c, n, horizon);
    case Abort(l) => DropPullKeepsInv(w, c, l);
    case Greet(l) => GreetKeepsInv(w, c, l);
    case Ask(l) => AskKeepsInv(w, c, l);
    case Compare(l) => CompareKeepsInv(w, c, l);
    case Record(l) => RecordKeepsInv(w, c, l);
  }

  lemma CompareKeepsInv(w: World, c: Cluster, l: Link)
    requires Inv(w, c) && Enabled(c, Compare(l))
    ensures Inv(w, DoCompare(w, c, l))
  {
    hide Inv, DigestOf;
    ShapeOf(w, c);
    PhaseOf(w, c, l);
    var g := c.pulls[l];
    var begin := BeginPull(Cfg(w, l.puller), c.nodes[l.puller], l.peer, g.digest, g.head);
    if begin.done {
      BookmarkKeepsInv(w, c, l, begin.bookmark);
      DropPullKeepsInv(w, SetBookmark(c, l, begin.bookmark), l);
    } else {
      PullStepKeepsInv(w, c, l, Asking(begin.cursor, begin.bookmark));
    }
  }

  lemma RecordKeepsInv(w: World, c: Cluster, l: Link)
    requires Inv(w, c) && Enabled(c, Record(l))
    ensures Inv(w, DoRecord(c, l))
  {
    hide Inv;
    ShapeOf(w, c);
    PhaseOf(w, c, l);
    var r := c.pulls[l];
    var c1 := SetBookmark(c, l, r.bookmark);
    BookmarkKeepsInv(w, c, l, r.bookmark);
    if r.more {
      PullStepKeepsInv(w, c1, l, Asking(r.cursor, r.bookmark));
    } else {
      DropPullKeepsInv(w, c1, l);
    }
  }

  lemma InitIsInv(w: World, c: Cluster)
    requires Init(w, c)
    ensures Inv(w, c)
  {
  }

  /** The invariant holds in every state any run reaches. */
  lemma {:induction false} RunKeepsInv(w: World, c: Cluster, run: seq<Action>)
    requires GoodWorld(w) && Inv(w, c) && Legal(w, c, run)
    ensures Inv(w, Run(w, c, run))
    decreases |run|
  {
    hide Do, Inv, Enabled, GoodWorld;
    if run != [] {
      ActionKeepsInv(w, c, run[0]);
      RunKeepsInv(w, Do(w, c, run[0]), run[1..]);
    }
  }
}
