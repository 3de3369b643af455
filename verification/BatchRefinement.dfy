/**
 applyRemote decides on the whole page against one snapshot of the tree and
 commits once at the end. This module shows when that is the same as
 committing each entry before looking at the next.
 */
module BatchRefinement {
  import opened Wrappers
  import opened Hlc
  import opened Path
  import opened Entry
  import opened Store
  import opened Node
  import opened AntiEntropy
  import opened EditsKept

  datatype Serial = Serial(node: NodeState, safe: int, deferred: bool)

  /** The first k entries applied as pages of one entry each; the bookmark stops at the first deferral. */
  function OneAtATime(cfg: Config, n: NodeState, entries: seq<Meta>, inputs: seq<Input>, k: nat): Serial
    requires k <= |entries| == |inputs|
  {
    if k == 0 then Serial(n, 0, false)
    else
      var s, e, input := OneAtATime(cfg, n, entries, inputs, k - 1), entries[k - 1], inputs[k - 1];
      var deferred := s.deferred || FateOf(cfg, s.node, [e], [input], 0).Deferred?;
      Serial(ApplyRemote(cfg, s.node, [e], [input]).node, if deferred then s.safe else Max(s.safe, e.pos), deferred)
  }

  /** Page paths are distinct, and no copy that the page makes lands on a path further down the page. */
  predicate NoCollisions(rows: Rows, entries: seq<Meta>)
  {
    && (forall i, j | 0 <= i < j < |entries| :: entries[i].path != entries[j].path)
    && (forall i, j | 0 <= i < j < |entries| && InConflict(rows, entries[i]) ::
          NameOf(rows[entries[i].path]) != entries[j].path)
  }

  /**
   Every element of the batch so far is filed under one of the first k page paths or the
   name of a copy made there.
   */
  predicate FiledEarlier(rows: Rows, entries: seq<Meta>, k: nat, batch: seq<Meta>)
    requires k <= |entries|
  {
    forall b | 0 <= b < |batch| :: FiledByAny(rows, entries, k, batch[b])
  }

  predicate FiledByAny(rows: Rows, entries: seq<Meta>, k: nat, m: Meta)
    requires k <= |entries|
  {
    exists i | 0 <= i < k :: FiledBy(rows, entries[i], m)
  }

  predicate FiledBy(rows: Rows, e: Meta, m: Meta)
  {
    m.path == e.path || (InConflict(rows, e) && m.path == NameOf(rows[e.path]))
  }

  lemma TakeFrame(cfg: Config, acc: Acc, remote: Meta, reply: Option<Bytes>)
    ensures var j := Take(cfg, acc, remote, reply);
            && (j.fate.Stored? || j.fate.Deferred?)
            && (j.fate.Deferred? <==> NeedsContent(remote) && EnsureBlob(cfg, acc.blobs, remote.hash, reply).None?)
            && j.acc.clock == acc.clock
            && j.acc.blobs == (if NeedsContent(remote) && j.fate.Stored? then
                                 EnsureBlob(cfg, acc.blobs, remote.hash, reply).value else acc.blobs)
            && j.acc.batch == acc.batch + (if j.fate.Stored? then [remote] else [])
            && j.acc.deferred == (acc.deferred || j.fate.Deferred?)
            && j.acc.safe == (if j.acc.deferred then acc.safe else Max(acc.safe, remote.pos))
  {
    assert acc.batch + [] == acc.batch;
  }

  /** Deciding one entry depends on the tree only through the entry's own path. */
  lemma JudgeFrame(cfg: Config, rows: Rows, acc: Acc, rows': Rows, acc': Acc, e: Meta, input: Input)
    requires acc.clock == acc'.clock && acc.blobs == acc'.blobs && acc'.batch == []
    requires e.path in rows <==> e.path in rows'
    requires e.path in rows ==> rows[e.path] == rows'[e.path]
    ensures var j, j' := Judge(cfg, rows, acc, e, input), Judge(cfg, rows', acc', e, input);
            && j.fate == j'.fate && j.acc.clock == j'.acc.clock && j.acc.blobs == j'.acc.blobs
            && j.acc.batch == acc.batch + j'.acc.batch
            && j.acc.deferred == (acc.deferred || j.fate.Deferred?)
            && j.acc.safe == (if j.acc.deferred then acc.safe else Max(acc.safe, e.pos))
            && (forall b | 0 <= b < |j'.acc.batch| :: FiledBy(rows, e, j'.acc.batch[b]))
  {
    hide Valid, ConflictName, Merge, EnsureBlob, Take, NeedsContent;
    var seen := Merge(acc.clock, e.version.hlc, input.observeAt);
    if seen.Some? {
      var a, a' := acc.(clock := seen.value), acc'.(clock := seen.value);
      TakeFrame(cfg, a, e, input.blob);
      TakeFrame(cfg, a', e, input.blob);
      if e.path in rows {
        TakeFrame(cfg, KeepCopy(cfg, a, rows[e.path], input.copyAt), e, input.blob);
        TakeFrame(cfg, KeepCopy(cfg, a', rows[e.path], input.copyAt), e, input.blob);
      }
    }
  }

  lemma {:induction false} UpsertConcat(rows: Rows, a: seq<Meta>, b: seq<Meta>, base: int, n: nat)
    requires n <= |b|
    ensures Upsert(Upsert(rows, a, base, |a|), b, base + |a|, n) == Upsert(rows, a + b, base, |a| + n)
  {
    if n > 0 {
      UpsertConcat(rows, a, b, base, n - 1);
      assert (a + b)[|a| + n - 1] == b[n - 1];
    } else {
      UpsertPrefix(rows, a, b, base, |a|);
    }
  }

  lemma {:induction false} UpsertPrefix(rows: Rows, a: seq<Meta>, b: seq<Meta>, base: int, n: nat)
    requires n <= |a|
    ensures Upsert(rows, a, base, n) == Upsert(rows, a + b, base, n)
  {
    if n > 0 {
      UpsertPrefix(rows, a, b, base, n - 1);
      assert (a + b)[n - 1] == a[n - 1];
    }
  }

  /** An entry's path is still as the page found it when its turn comes. */
  lemma UntouchedSoFar(rows: Rows, entries: seq<Meta>, k: nat, batch: seq<Meta>)
    requires k < |entries| && NoCollisions(rows, entries) && FiledEarlier(rows, entries, k, batch)
    ensures !Touches(batch, entries[k].path)
  {
    hide ConflictName;
    forall b | 0 <= b < |batch| ensures batch[b].path != entries[k].path {
      assert FiledByAny(rows, entries, k, batch[b]);
      var i :| 0 <= i < k && FiledBy(rows, entries[i], batch[b]);
      assert entries[i].path != entries[k].path;
    }
  }

  /**
   Batched apply refines one-at-a-time apply: with no path collisions, a page
   leaves exactly the rows, feed positions, blobs, clock and safe position that
   committing its entries one by one leaves, with rejected and deferred entries
   among them.
   */
  lemma {:induction false} BatchRefinesSerial(cfg: Config, n: NodeState, entries: seq<Meta>, inputs: seq<Input>, k: nat)
    requires k <= |entries| == |inputs| && NoCollisions(n.store.rows, entries)
    ensures var acc, s := AccAt(cfg, n, entries, inputs, k), OneAtATime(cfg, n, entries, inputs, k);
            && s == Serial(NodeState(Apply(n.store.(blobs := acc.blobs), acc.batch), acc.clock), acc.safe, acc.deferred)
            && FiledEarlier(n.store.rows, entries, k, acc.batch)
    ensures k == |entries| ==>
            var a, s := ApplyRemote(cfg, n, entries, inputs), OneAtATime(cfg, n, entries, inputs, k);
            a.node == s.node && a.safe == s.safe
  {
    hide NoCollisions, Judge, FateOf;
    if k > 0 {
      BatchRefinesSerial(cfg, n, entries, inputs, k - 1);
      SerialStep(cfg, n, entries, inputs, k, AccAt(cfg, n, entries, inputs, k - 1));
    }
  }

  /** A page of one entry is one decision, committed. */
  lemma SingleEntry(cfg: Config, n: NodeState, e: Meta, input: Input)
    ensures var j := Judge(cfg, n.store.rows, Start(n), e, input);
            && FateOf(cfg, n, [e], [input], 0) == j.fate
            && ApplyRemote(cfg, n, [e], [input]).node
            == NodeState(Apply(n.store.(blobs := j.acc.blobs), j.acc.batch), j.acc.clock)
  {
    hide Judge, Apply;
    assert AccAt(cfg, n, [e], [input], 0) == Start(n);
    assert AccAt(cfg, n, [e], [input], 1) == Judge(cfg, n.store.rows, Start(n), e, input).acc;
  }

  lemma SerialStep(cfg: Config, n: NodeState, entries: seq<Meta>, inputs: seq<Input>, k: nat, acc: Acc)
    requires 0 < k <= |entries| == |inputs| && NoCollisions(n.store.rows, entries)
    requires acc == AccAt(cfg, n, entries, inputs, k - 1)
    requires FiledEarlier(n.store.rows, entries, k - 1, acc.batch)
    requires OneAtATime(cfg, n, entries, inputs, k - 1) ==
             Serial(NodeState(Apply(n.store.(blobs := acc.blobs), acc.batch), acc.clock), acc.safe, acc.deferred)
    ensures var acc', s := AccAt(cfg, n, entries, inputs, k), OneAtATime(cfg, n, entries, inputs, k);
            && s == Serial(NodeState(Apply(n.store.(blobs := acc'.blobs), acc'.batch), acc'.clock),
                           acc'.safe, acc'.deferred)
            && FiledEarlier(n.store.rows, entries, k, acc'.batch)
  {
    hide NoCollisions, Judge, FiledEarlier, FiledBy, ApplyRemote, FateOf;
    var e, input := entries[k - 1], inputs[k - 1];
    var mid := NodeState(Apply(n.store.(blobs := acc.blobs), acc.batch), acc.clock);
    var start := Start(mid);
    UntouchedSoFar(n.store.rows, entries, k - 1, acc.batch);
    UpsertAt(n.store.rows, acc.batch, n.store.head, |acc.batch|, e.path);
    JudgeFrame(cfg, n.store.rows, acc, mid.store.rows, start, e, input);
    var j, j' := Judge(cfg, n.store.rows, acc, e, input), Judge(cfg, mid.store.rows, start, e, input);
    SingleEntry(cfg, mid, e, input);
    UpsertConcat(n.store.rows, acc.batch, j'.acc.batch, n.store.head, |j'.acc.batch|);
    FiledStep(n.store.rows, entries, k, acc.batch, j'.acc.batch);
  }

  lemma FiledStep(rows: Rows, entries: seq<Meta>, k: nat, batch: seq<Meta>, more: seq<Meta>)
    requires 0 < k <= |entries| && FiledEarlier(rows, entries, k - 1, batch)
    requires forall b | 0 <= b < |more| :: FiledBy(rows, entries[k - 1], more[b])
    ensures FiledEarlier(rows, entries, k, batch + more)
  {
    var all := batch + more;
    forall b | 0 <= b < |all| ensures FiledByAny(rows, entries, k, all[b]) {
      if b < |batch| {
        assert all[b] == batch[b] && FiledByAny(rows, entries, k - 1, batch[b]);
        var i :| 0 <= i < k - 1 && FiledBy(rows, entries[i], batch[b]);
        assert FiledBy(rows, entries[i], all[b]);
      } else {
        assert all[b] == more[b - |batch|];
        assert FiledBy(rows, entries[k - 1], all[b]);
      }
    }
  }
}
