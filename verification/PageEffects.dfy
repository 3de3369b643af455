/** What applying one page does to the rows. */
module PageEffects {
  import opened Hlc
  import opened Path
  import opened Entry
  import opened Store
  import opened Node
  import opened AntiEntropy
  import opened NodeFacts

  ghost predicate PageReady(cfg: Config, n: NodeState, entries: seq<Meta>, inputs: seq<Input>)
  {
    NodeOk(n) && |entries| == |inputs| && RoomForPage(n.clock, entries)
  }

  ghost predicate DistinctPaths(entries: seq<Meta>)
  {
    forall i, j | 0 <= i < j < |entries| :: entries[i].path != entries[j].path
  }

  /** The batch a page commits, with the provenance of each element. */
  lemma BatchFacts(cfg: Config, n: NodeState, entries: seq<Meta>, inputs: seq<Input>)
    requires PageReady(cfg, n, entries, inputs)
    ensures var a := ApplyRemote(cfg, n, entries, inputs);
            && BatchOk(cfg, n, entries, |entries|, AccAt(cfg, n, entries, inputs, |entries|))
            && a.batch == AccAt(cfg, n, entries, inputs, |entries|).batch
            && a.node.clock == AccAt(cfg, n, entries, inputs, |entries|).clock
            && NotBefore(a.node.clock, n.clock)
            && a.node.store.head == n.store.head + |a.batch|
            && a.node.store.peers == n.store.peers
  {
    hide Fold, BatchOk;
    PageInvariant(cfg, n, entries, inputs, |entries|);
  }

  /** Each path of the tree after a page: its last batch element, or what was there. */
  lemma RowAfterPage(cfg: Config, n: NodeState, entries: seq<Meta>, inputs: seq<Input>, p: string)
    requires |entries| == |inputs|
    ensures var a := ApplyRemote(cfg, n, entries, inputs);
            var i, after := LastIndex(a.batch, |a.batch|, p), a.node.store.rows;
            if i >= 0 then p in after && after[p] == a.batch[i].(pos := n.store.head + i + 1)
            else (p in after <==> p in n.store.rows) && (p in n.store.rows ==> after[p] == n.store.rows[p])
  {
    hide AccAt, Fold;
    var a := ApplyRemote(cfg, n, entries, inputs);
    UpsertAt(n.store.rows, a.batch, n.store.head, |a.batch|, p);
  }

  /** A batch element beats whatever row its path had. */
  lemma BatchBeatsRow(cfg: Config, n: NodeState, entries: seq<Meta>, inputs: seq<Input>, j: nat)
    requires PageReady(cfg, n, entries, inputs)
    requires j < |ApplyRemote(cfg, n, entries, inputs).batch|
    ensures var m := ApplyRemote(cfg, n, entries, inputs).batch[j];
            m.path in n.store.rows ==> After(m.version, n.store.rows[m.path].version)
  {
    hide AccAt, Apply;
    BatchFacts(cfg, n, entries, inputs);
    var m := ApplyRemote(cfg, n, entries, inputs).batch[j];
    if m.path in n.store.rows && !Taken(cfg, n.store.rows, entries, |entries|, m) {
      assert Precedes(n.clock, m.version.hlc);
      assert NotBefore(n.clock, n.store.rows[m.path].version.hlc);
    }
  }

  /**
   Applying any page keeps the node's invariant and never moves a path back: the
   clock still covers every stored version, and every replaced row, by a remote
   row or by a conflict copy, is replaced by a strictly later write, even when
   one batch holds two entries for one path.
   */
  lemma PageRises(cfg: Config, n: NodeState, entries: seq<Meta>, inputs: seq<Input>)
    requires PageReady(cfg, n, entries, inputs)
    ensures var a := ApplyRemote(cfg, n, entries, inputs);
            NodeOk(a.node) && Rises(n.store.rows, a.node.store.rows) && OldFeedKept(n.store, a.node.store)
  {
    hide AccAt, Fold;
    var a := ApplyRemote(cfg, n, entries, inputs);
    BatchFacts(cfg, n, entries, inputs);
    ApplyKeepsFeed(n.store.(blobs := a.node.store.blobs), a.batch);
    forall p | p in a.node.store.rows
      ensures NotBefore(a.node.clock, a.node.store.rows[p].version.hlc)
    {
      RowAfterPage(cfg, n, entries, inputs, p);
      if p in n.store.rows {
        assert NotBefore(n.clock, n.store.rows[p].version.hlc);
      }
    }
    forall p | p in n.store.rows
      ensures p in a.node.store.rows
      ensures a.node.store.rows[p] == n.store.rows[p] || After(a.node.store.rows[p].version, n.store.rows[p].version)
    {
      RowAfterPage(cfg, n, entries, inputs, p);
      var i := LastIndex(a.batch, |a.batch|, p);
      if i >= 0 {
        BatchBeatsRow(cfg, n, entries, inputs, i);
      }
    }
  }

  lemma OneRowKeepsFeed(st: StoreState, st': StoreState, m: Meta)
    requires WellFormed(st)
    requires st'.head == st.head + 1
    requires st'.rows == st.rows[m.path := m.(pos := st.head + 1)]
    ensures WellFormed(st') && OldFeedKept(st, st')
  {
    var applied := Apply(st, [m]);
    assert Upsert(st.rows, [m], st.head, 0) == st.rows;
    assert applied.rows == st'.rows;
    ApplyKeepsFeed(st, [m]);
    hide Apply, Upsert, UniqueSeqs, WellFiled;
  }

  lemma OneRowRises(n: NodeState, rows: Rows, m: Meta)
    requires ClockCovers(n) && Precedes(n.clock, m.version.hlc)
    requires rows == n.store.rows[m.path := m]
    ensures Rises(n.store.rows, rows)
    ensures forall p | p in rows :: NotBefore(m.version.hlc, rows[p].version.hlc)
  {
    forall p | p in n.store.rows
      ensures NotBefore(m.version.hlc, n.store.rows[p].version.hlc)
      ensures After(m.version, n.store.rows[p].version)
    {
      assert NotBefore(n.clock, n.store.rows[p].version.hlc);
    }
  }

  /** Local writes keep the same invariant and strictly raise the path they touch. */
  lemma LocalWriteRises(cfg: Config, n: NodeState, op: LocalOp, at: int64)
    requires NodeOk(n) && Room(n.clock, 1)
    ensures var o := RunLocal(cfg, n, op, at);
            && NodeOk(o.node) && Rises(n.store.rows, o.node.store.rows) && OldFeedKept(n.store, o.node.store)
            && NotBefore(o.node.clock, n.clock)
            && (o.batch != [] ==> Precedes(n.clock, o.batch[0].version.hlc))
  {
    hide RunLocal, SanitizePath;
    WriteLands(cfg, n, op, at);
    TickAdvances(n.clock, at);
    var o := RunLocal(cfg, n, op, at);
    if o.batch != [] {
      var m := o.batch[0].(pos := n.store.head + 1);
      OneRowKeepsFeed(n.store, o.node.store, o.batch[0]);
      OneRowRises(n, o.node.store.rows, m);
      hide WellFormed, OldFeedKept, Rises;
    }
  }

  lemma {:induction false} BatchIsPrefix(cfg: Config, n: NodeState, entries: seq<Meta>, inputs: seq<Input>, i: nat,
                                         k: nat)
    requires i <= k <= |entries| == |inputs|
    ensures AccAt(cfg, n, entries, inputs, i).batch <= AccAt(cfg, n, entries, inputs, k).batch
    decreases k
  {
    if i < k {
      BatchIsPrefix(cfg, n, entries, inputs, i, k - 1);
      JudgeExtendsBatch(cfg, n.store.rows, AccAt(cfg, n, entries, inputs, k - 1), entries[k - 1], inputs[k - 1]);
      hide Judge;
    }
  }

  /** Where a stored entry sits in the batch. */
  lemma StoredIsInBatch(cfg: Config, n: NodeState, entries: seq<Meta>, inputs: seq<Input>, i: nat) returns (j: nat)
    requires |entries| == |inputs| && i < |entries|
    requires FateOf(cfg, n, entries, inputs, i).Stored?
    ensures j < |ApplyRemote(cfg, n, entries, inputs).batch|
    ensures ApplyRemote(cfg, n, entries, inputs).batch[j] == entries[i]
    ensures j == |AccAt(cfg, n, entries, inputs, i + 1).batch| - 1
  {
    var acc, acc' := AccAt(cfg, n, entries, inputs, i), AccAt(cfg, n, entries, inputs, i + 1);
    JudgeExtendsBatch(cfg, n.store.rows, acc, entries[i], inputs[i]);
    BatchIsPrefix(cfg, n, entries, inputs, i + 1, |entries|);
    hide Judge;
    j := |acc'.batch| - 1;
    assert acc'.batch[j] == entries[i];
  }

  /** After an honest page, every stored or skipped entry's path holds that entry or a later write. */
  lemma AbsorbedIsReached(cfg: Config, n: NodeState, entries: seq<Meta>, inputs: seq<Input>, i: nat)
    requires PageReady(cfg, n, entries, inputs) && DistinctPaths(entries) && i < |entries|
    requires var fate := FateOf(cfg, n, entries, inputs, i); fate.Stored? || fate.Skipped?
    ensures var after := ApplyRemote(cfg, n, entries, inputs).node.store.rows;
            entries[i].path in after && AtLeast(after[entries[i].path].version, entries[i].version)
  {
    var e := entries[i];
    var a := ApplyRemote(cfg, n, entries, inputs);
    if FateOf(cfg, n, entries, inputs, i).Stored? {
      var j := StoredIsInBatch(cfg, n, entries, inputs, i);
      StoredIsReached(cfg, n, entries, inputs, e, j);
    } else {
      SkippedIsBehind(cfg, n.store.rows, AccAt(cfg, n, entries, inputs, i), e, inputs[i]);
      PageRises(cfg, n, entries, inputs);
      hide ApplyRemote, AccAt;
      assert e.path in a.node.store.rows;
      AfterIsTotal(a.node.store.rows[e.path].version, n.store.rows[e.path].version);
      AtLeastIsTransitive(a.node.store.rows[e.path].version, n.store.rows[e.path].version, e.version);
    }
  }

  lemma StoredIsReached(cfg: Config, n: NodeState, entries: seq<Meta>, inputs: seq<Input>, e: Meta, j: nat)
    requires PageReady(cfg, n, entries, inputs) && DistinctPaths(entries) && e in entries
    requires var batch := ApplyRemote(cfg, n, entries, inputs).batch; j < |batch| && batch[j] == e
    ensures var after := ApplyRemote(cfg, n, entries, inputs).node.store.rows;
            e.path in after && AtLeast(after[e.path].version, e.version)
  {
    hide AccAt, Apply, ApplyRemote, BatchOk, NodeOk, RoomForPage, DistinctPaths;
    var a := ApplyRemote(cfg, n, entries, inputs);
    BatchFacts(cfg, n, entries, inputs);
    RowAfterPage(cfg, n, entries, inputs, e.path);
    var last := LastIndex(a.batch, |a.batch|, e.path);
    assert last >= j;
    if last == j {
      AfterIsTotal(e.version, e.version);
    } else {
      LaterElementWins(cfg, n, entries, AccAt(cfg, n, entries, inputs, |entries|), j, last);
    }
  }

  /** Of two batch elements for one path of a page with distinct paths, the later one is not older. */
  lemma LaterElementWins(cfg: Config, n: NodeState, entries: seq<Meta>, acc: Acc, j: nat, last: nat)
    requires BatchOk(cfg, n, entries, |entries|, acc) && DistinctPaths(entries) && j < last < |acc.batch|
    requires acc.batch[j] in entries && acc.batch[last].path == acc.batch[j].path
    ensures AtLeast(acc.batch[last].version, acc.batch[j].version)
  {
    if Taken(cfg, n.store.rows, entries, |entries|, acc.batch[last]) {
      TakenIsEntry(cfg, n.store.rows, entries, acc.batch[last]);
      SamePathSameEntry(entries, acc.batch[last], acc.batch[j]);
      AfterIsTotal(acc.batch[last].version, acc.batch[j].version);
    } else {
      hide Taken, IsCopy, NotBefore, DistinctPaths;
      assert Precedes(acc.batch[j].version.hlc, acc.batch[last].version.hlc);
      hide BatchOk;
      AfterIsTotal(acc.batch[last].version, acc.batch[j].version);
    }
  }

  lemma TakenIsEntry(cfg: Config, rows: Rows, entries: seq<Meta>, m: Meta)
    requires Taken(cfg, rows, entries, |entries|, m)
    ensures m in entries
  {
    assert entries[..|entries|] == entries;
    hide Valid;
  }

  lemma SamePathSameEntry(entries: seq<Meta>, a: Meta, b: Meta)
    requires DistinctPaths(entries) && a in entries && b in entries && a.path == b.path
    ensures a == b
  {
    var x, y :| 0 <= x < |entries| && 0 <= y < |entries| && entries[x] == a && entries[y] == b;
    assert x == y;
  }
}
