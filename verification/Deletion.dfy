/** A deletion that has reached everyone is never undone, not even after its tombstone is collected. */
module Deletion {
  import opened Hlc
  import opened Path
  import opened Entry
  import opened Store
  import opened Transport
  import opened Node
  import opened AntiEntropy
  import opened NodeFacts
  import opened PageEffects
  import opened Cluster
  import opened ClusterInvariant

  /** m is not one of the given writes, or is not older than t. */
  predicate NotRevived(existing: set<Meta>, t: Version, m: Meta)
  {
    Norm(m) in existing ==> AtLeast(m.version, t)
  }

  ghost predicate StoreClear(existing: set<Meta>, t: Version, p: string, rows: Rows)
  {
    p in rows ==> NotRevived(existing, t, rows[p])
  }

  ghost predicate PhaseClear(existing: set<Meta>, t: Version, p: string, ph: Phase)
  {
    ph.Holding? ==> forall e | e in ph.page.entries && e.path == p :: NotRevived(existing, t, e)
  }

  /** No store and no page on its way holds one of the given writes to p that is older than t. */
  ghost predicate Buried(c: Cluster, existing: set<Meta>, p: string, t: Version)
  {
    && (forall n | n in c.nodes :: StoreClear(existing, t, p, c.nodes[n].store.rows))
    && (forall l | l in c.pulls :: PhaseClear(existing, t, p, c.pulls[l]))
  }

  /** Every store, and every page on its way, holds for p a row at or after t, or no row. */
  ghost predicate DeletedEverywhere(c: Cluster, p: string, t: Version)
  {
    && (forall n | n in c.nodes && p in c.nodes[n].store.rows :: AtLeast(c.nodes[n].store.rows[p].version, t))
    && (forall l, e | l in c.pulls && c.pulls[l].Holding? && e in c.pulls[l].page.entries && e.path == p ::
          AtLeast(e.version, t))
  }

  lemma FreshIsNew(w: World, c: Cluster, existing: set<Meta>, n: string, m: Meta)
    requires Inv(w, c) && existing <= c.hist.writes && n in c.nodes
    requires m.version.origin == n && Precedes(c.nodes[n].clock, m.version.hlc)
    ensures Norm(m) !in existing
  {
    forall x | x in existing ensures x.version.origin == n ==> NotBefore(c.nodes[n].clock, x.version.hlc) {
      assert WriteOk(c.nodes, x);
    }
  }

  lemma BuriedMove(c: Cluster, existing: set<Meta>, p: string, t: Version, n: string, after: NodeState, c': Cluster)
    requires Buried(c, existing, p, t)
    requires c'.nodes == c.nodes[n := after] && StoreClear(existing, t, p, after.store.rows)
    requires forall l | l in c'.pulls :: (l in c.pulls && c'.pulls[l] == c.pulls[l]) || !c'.pulls[l].Holding?
    ensures Buried(c', existing, p, t)
  {
  }

  lemma WriteKeepsBuried(w: World, c: Cluster, n: string, op: LocalOp, at: int64, existing: set<Meta>, p: string,
                         t: Version)
    requires Inv(w, c) && Enabled(c, Write(n, op, at))
    requires existing <= c.hist.writes && Buried(c, existing, p, t)
    ensures Buried(DoWrite(w, c, n, op, at), existing, p, t)
  {
    hide RunLocal, Inv, NodeOk, Norms, StoredBy, SanitizePath, Listed;
    ShapeOf(w, c);
    NodeOf(w, c, n);
    var o := RunLocal(Cfg(w, n), c.nodes[n], op, at);
    FormedOf(c.nodes[n]);
    WriteLands(Cfg(w, n), c.nodes[n], op, at);
    TickAdvances(c.nodes[n].clock, at);
    if o.batch != [] {
      FreshIsNew(w, c, existing, n, o.batch[0]);
    }
    BuriedMove(c, existing, p, t, n, o.node, DoWrite(w, c, n, op, at));
  }

  lemma ReceiveKeepsBuried(w: World, c: Cluster, l: Link, inputs: seq<Input>, existing: set<Meta>, p: string,
                           t: Version)
    requires Inv(w, c) && Enabled(c, Receive(l, inputs))
    requires existing <= c.hist.writes && Buried(c, existing, p, t)
    ensures Buried(DoReceive(w, c, l, inputs), existing, p, t)
  {
    hide ApplyRemote, Inv, Norms, RoomForPage, StoreClear, PhaseClear, DoReceive, Shape, Max;
    var entries := c.pulls[l].page.entries;
    ShapeOf(w, c);
    if entries == [] {
      ReceiveNothing(w, c, l, inputs);
    } else {
      PageClear(w, c, l, inputs, existing, p, t);
      ReceiveShape(w, c, l, inputs);
      var a := ApplyRemote(Cfg(w, l.puller), c.nodes[l.puller], entries, inputs);
      BuriedMove(c, existing, p, t, l.puller, a.node, DoReceive(w, c, l, inputs));
    }
  }

  lemma PageClear(w: World, c: Cluster, l: Link, inputs: seq<Input>, existing: set<Meta>, p: string, t: Version)
    requires Inv(w, c) && Enabled(c, Receive(l, inputs))
    requires existing <= c.hist.writes && Buried(c, existing, p, t)
    ensures StoreClear(existing, t, p,
              ApplyRemote(Cfg(w, l.puller), c.nodes[l.puller], c.pulls[l].page.entries, inputs).node.store.rows)
  {
    hide AccAt, Apply, Inv, NodeOk, Valid, IsCopyOf;
    ShapeOf(w, c);
    NodeOf(w, c, l.puller);
    var cfg, n, entries := Cfg(w, l.puller), c.nodes[l.puller], c.pulls[l].page.entries;
    BatchFacts(cfg, n, entries, inputs);
    RowAfterPage(cfg, n, entries, inputs, p);
    var a := ApplyRemote(cfg, n, entries, inputs);
    var i := LastIndex(a.batch, |a.batch|, p);
    assert StoreClear(existing, t, p, n.store.rows) && PhaseClear(existing, t, p, c.pulls[l]);
    if i >= 0 {
      assert entries[..|entries|] == entries;
      if !Taken(cfg, n.store.rows, entries, |entries|, a.batch[i]) {
        CopyOrigin(cfg, n, entries, a.batch[i]);
        FreshIsNew(w, c, existing, l.puller, a.batch[i]);
      } else {
        assert NotRevived(existing, t, a.batch[i]);
      }
    }
  }

  lemma CopyOrigin(cfg: Config, n: NodeState, entries: seq<Meta>, m: Meta)
    requires IsCopy(cfg, n, entries, |entries|, m)
    ensures m.version.origin == cfg.node && Precedes(n.clock, m.version.hlc)
  {
  }

  lemma ServedPageIsClear(st: StoreState, existing: set<Meta>, p: string, t: Version, cursor: int)
    requires WellFormed(st) && StoreClear(existing, t, p, st.rows)
    ensures forall e | e in GetManifest(st.rows, cursor).entries && e.path == p :: NotRevived(existing, t, e)
  {
    ManifestIsPage(st, cursor);
    hide GetManifest, NotRevived, Delivered;
    var entries := GetManifest(st.rows, cursor).entries;
    forall e | e in entries && e.path == p ensures NotRevived(existing, t, e) {
      var i :| 0 <= i < |entries| && entries[i] == e;
    }
  }

  lemma AskKeepsBuried(w: World, c: Cluster, l: Link, existing: set<Meta>, p: string, t: Version)
    requires Inv(w, c) && Enabled(c, Ask(l)) && Buried(c, existing, p, t)
    ensures c.nodes.Keys == w.limits.Keys && Buried(Do(w, c, Ask(l)), existing, p, t)
  {
    hide Inv, NotRevived, GetManifest;
    ShapeOf(w, c);
    NodeOf(w, c, l.peer);
    ServedPageIsClear(c.nodes[l.peer].store, existing, p, t, c.pulls[l].cursor);
  }

  lemma ActionKeepsBuried(w: World, c: Cluster, a: Action, existing: set<Meta>, p: string, t: Version)
    requires Inv(w, c) && Enabled(c, a)
    requires existing <= c.hist.writes && Buried(c, existing, p, t)
    ensures c.nodes.Keys == w.limits.Keys
    ensures Buried(Do(w, c, a), existing, p, t) && c.hist.writes <= Do(w, c, a).hist.writes
  {
    hide Inv, RunLocal, ApplyRemote, NotRevived, RoomForPage, AbsorbedPaths, RejectedRows, StoredBy, Buried;
    ShapeOf(w, c);
    if a.Write? {
      WriteKeepsBuried(w, c, a.node, a.op, a.at, existing, p, t);
    } else if a.Receive? {
      hide Shape;
      ReceiveKeepsBuried(w, c, a.link, a.inputs, existing, p, t);
    } else if a.Ask? {
      AskKeepsBuried(w, c, a.link, existing, p, t);
    } else {
      QuietKeepsBuried(w, c, a, existing, p, t);
    }
  }

  /** Steps that store no row and serve no page. */
  lemma QuietKeepsBuried(w: World, c: Cluster, a: Action, existing: set<Meta>, p: string, t: Version)
    requires Enabled(c, a) && !a.Write? && !a.Receive? && !a.Ask? && Shape(w, c)
    requires Buried(c, existing, p, t)
    ensures Buried(Do(w, c, a), existing, p, t) && c.hist.writes <= Do(w, c, a).hist.writes
  {
    hide NotRevived, BeginPull, GetManifest;
  }

  lemma {:induction false} RunKeepsBuried(w: World, c: Cluster, run: seq<Action>, existing: set<Meta>, p: string,
                                          t: Version)
    requires GoodWorld(w) && Inv(w, c) && Legal(w, c, run)
    requires existing <= c.hist.writes && Buried(c, existing, p, t)
    ensures Buried(Run(w, c, run), existing, p, t)
    decreases |run|
  {
    hide Do, Inv, Enabled, GoodWorld, Buried;
    if run != [] {
      ActionKeepsInv(w, c, run[0]);
      ActionKeepsBuried(w, c, run[0], existing, p, t);
      RunKeepsBuried(w, Do(w, c, run[0]), run[1..], existing, p, t);
    }
  }

  /**
   Deletion is never undone. Take any reachable state in which, for path p, every
   store and every page on its way holds tombstone t, something later, or no
   row. On no run from there, with further pulls, writes, crashes and tombstone
   collection, does any store hold again a write to p that existed then and is
   older than t.
   */
  lemma DeletionIsNeverUndone(w: World, c0: Cluster, before: seq<Action>, after: seq<Action>, p: string, t: Version,
                              n: string)
    requires GoodWorld(w) && Init(w, c0) && Legal(w, c0, before)
    requires var c := Run(w, c0, before); Legal(w, c, after) && DeletedEverywhere(c, p, t)
    requires n in Run(w, Run(w, c0, before), after).nodes
    ensures var c := Run(w, c0, before);
            var rows := Run(w, c, after).nodes[n].store.rows;
            p in rows && Norm(rows[p]) in c.hist.writes ==> AtLeast(rows[p].version, t)
  {
    hide Legal, Run;
    InitIsInv(w, c0);
    RunKeepsInv(w, c0, before);
    var c := Run(w, c0, before);
    hide Inv, Init, GoodWorld;
    assert Buried(c, c.hist.writes, p, t);
    RunKeepsBuried(w, c, after, c.hist.writes, p, t);
    assert StoreClear(c.hist.writes, t, p, Run(w, c, after).nodes[n].store.rows);
  }
}
