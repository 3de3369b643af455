/** Content integrity: every live file row can be served. */
module Integrity {
  import opened Wrappers
  import opened Hlc
  import opened Path
  import opened Entry
  import opened Store
  import opened Node
  import opened AntiEntropy
  import opened PageEffects
  import opened Paging

  /** A live file whose content can be served; anything else has no content to serve. */
  ghost predicate Servable(blobs: map<string, Bytes>, m: Meta)
  {
    m.kind == KIND_FILE && !m.deleted && m.hash != "" ==> m.hash in blobs
  }

  ghost predicate AllServable(blobs: map<string, Bytes>, rows: Rows)
  {
    forall p | p in rows :: Servable(blobs, rows[p])
  }

  /** Every live file row with a hash has a stored blob, and every blob hashes to its address. */
  ghost predicate ContentHeld(cfg: Config, n: NodeState)
  {
    BlobsAddressed(cfg, n.store.blobs) && AllServable(n.store.blobs, n.store.rows)
  }

  ghost predicate AccHeld(cfg: Config, rows: Rows, acc: Acc)
  {
    && BlobsAddressed(cfg, acc.blobs)
    && AllServable(acc.blobs, rows)
    && forall i | 0 <= i < |acc.batch| :: Servable(acc.blobs, acc.batch[i])
  }

  lemma EnsureBlobHolds(cfg: Config, blobs: map<string, Bytes>, hash: string, reply: Option<Bytes>)
    requires BlobsAddressed(cfg, blobs) && EnsureBlob(cfg, blobs, hash, reply).Some?
    ensures var blobs' := EnsureBlob(cfg, blobs, hash, reply).value;
            hash in blobs' && blobs.Keys <= blobs'.Keys && BlobsAddressed(cfg, blobs')
            && (forall h | h in blobs :: blobs'[h] == blobs[h])
  {
  }

  lemma TakeHolds(cfg: Config, rows: Rows, acc: Acc, remote: Meta, reply: Option<Bytes>)
    requires AccHeld(cfg, rows, acc)
    ensures AccHeld(cfg, rows, Take(cfg, acc, remote, reply).acc)
  {
    if NeedsContent(remote) && EnsureBlob(cfg, acc.blobs, remote.hash, reply).Some? {
      EnsureBlobHolds(cfg, acc.blobs, remote.hash, reply);
    }
    hide EnsureBlob, BlobsAddressed;
  }

  lemma JudgeHolds(cfg: Config, rows: Rows, acc: Acc, remote: Meta, input: Input)
    requires AccHeld(cfg, rows, acc)
    ensures AccHeld(cfg, rows, Judge(cfg, rows, acc, remote, input).acc)
  {
    hide Take, BlobsAddressed, ConflictName, Valid;
    var seen := Merge(acc.clock, remote.version.hlc, input.observeAt);
    if seen.Some? {
      var acc1 := acc.(clock := seen.value);
      TakeHolds(cfg, rows, acc1, remote, input.blob);
      if remote.path in rows {
        assert Servable(acc.blobs, rows[remote.path]);
        TakeHolds(cfg, rows, KeepCopy(cfg, acc1, rows[remote.path], input.copyAt), remote, input.blob);
      }
    }
    hide Merge;
  }

  lemma {:induction false} FoldHolds(cfg: Config, n: NodeState, entries: seq<Meta>, inputs: seq<Input>, k: nat)
    requires ContentHeld(cfg, n) && k <= |entries| == |inputs|
    ensures AccHeld(cfg, n.store.rows, AccAt(cfg, n, entries, inputs, k))
  {
    if k > 0 {
      FoldHolds(cfg, n, entries, inputs, k - 1);
      JudgeHolds(cfg, n.store.rows, AccAt(cfg, n, entries, inputs, k - 1), entries[k - 1], inputs[k - 1]);
    }
    hide Judge;
  }

  lemma PageKeepsContent(cfg: Config, n: NodeState, entries: seq<Meta>, inputs: seq<Input>)
    requires ContentHeld(cfg, n) && |entries| == |inputs|
    ensures ContentHeld(cfg, ApplyRemote(cfg, n, entries, inputs).node)
  {
    FoldHolds(cfg, n, entries, inputs, |entries|);
    hide AccAt, Servable;
    var a := ApplyRemote(cfg, n, entries, inputs);
    forall p | p in a.node.store.rows ensures Servable(a.node.store.blobs, a.node.store.rows[p]) {
      RowAfterPage(cfg, n, entries, inputs, p);
      var i := LastIndex(a.batch, |a.batch|, p);
      if i >= 0 {
        assert Servable(a.node.store.blobs, a.batch[i]);
        ServableIgnoresPos(a.node.store.blobs, a.batch[i], n.store.head + i + 1);
      }
    }
  }

  lemma ServableIgnoresPos(blobs: map<string, Bytes>, m: Meta, pos: int)
    ensures Servable(blobs, m) <==> Servable(blobs, m.(pos := pos))
  {
  }

  lemma LocalWriteKeepsContent(cfg: Config, n: NodeState, op: LocalOp, at: int64)
    requires WellFiled(n.store.rows) && ContentHeld(cfg, n)
    ensures ContentHeld(cfg, RunLocal(cfg, n, op, at).node)
  {
    WriteLands(cfg, n, op, at);
    var o := RunLocal(cfg, n, op, at);
    if o.batch != [] {
      assert n.store.blobs.Keys <= o.node.store.blobs.Keys && BlobsAddressed(cfg, o.node.store.blobs);
      assert Servable(o.node.store.blobs, o.batch[0]) by {
        if op.SetAttr? {
          assert Servable(n.store.blobs, n.store.rows[op.path]);
        }
      }
      hide RunLocal;
    }
  }

  /** A tombstone whose known deletion time lies before the horizon. */
  predicate Outlived(m: Meta, horizon: int)
  {
    m.deleted && 0 < m.deletedAt < horizon
  }

  /**
   The janitor keeps content integrity, and is exact: a row goes if and only if it is a
   tombstone whose known deletion time lies before the horizon, and the blobs left are
   those already held that some row left has the hash of, with their content.
   */
  lemma CollectIsExact(cfg: Config, n: NodeState, horizon: int)
    requires ContentHeld(cfg, n)
    ensures var n' := Collect(n, horizon);
            && ContentHeld(cfg, n') && n'.clock == n.clock
            && (forall p :: p in n'.store.rows <==> p in n.store.rows && !Outlived(n.store.rows[p], horizon))
            && (forall p | p in n'.store.rows :: n'.store.rows[p] == n.store.rows[p])
            && (forall h :: h in n'.store.blobs <==>
                  h in n.store.blobs && h != "" && exists p :: p in n'.store.rows && n'.store.rows[p].hash == h)
            && (forall h | h in n'.store.blobs :: n'.store.blobs[h] == n.store.blobs[h])
            && n'.store.head == n.store.head && n'.store.peers == n.store.peers
  {
    var n' := Collect(n, horizon);
    forall p | p in n'.store.rows ensures Servable(n'.store.blobs, n'.store.rows[p]) {
      assert Servable(n.store.blobs, n.store.rows[p]);
    }
  }

  /** The operations are runs of the janitor. */
  predicate Janitors(ops: seq<NodeOp>)
  {
    forall i | 0 <= i < |ops| :: ops[i].Janitor?
  }

  /** One of the first k runs of the janitor outlives m. */
  predicate OutlivedBy(ops: seq<NodeOp>, k: nat, m: Meta)
    requires k <= |ops| && Janitors(ops)
  {
    exists i | 0 <= i < k :: Outlived(m, ops[i].horizon)
  }

  /**
   Collection over and over. However often and with whatever horizons the janitor runs,
   exactly the tombstones that one of the horizons outlives are gone; every live row is
   still there as it was, and the content of every live file with it.
   */
  lemma {:induction false} LivingIsKept(cfg: Config, n: NodeState, ops: seq<NodeOp>, k: nat)
    requires k <= |ops| && Janitors(ops) && ContentHeld(cfg, n)
    ensures var n' := RunOps(cfg, n, ops, k);
            && ContentHeld(cfg, n') && n'.clock == n.clock
            && (forall p :: p in n'.store.rows <==> p in n.store.rows && !OutlivedBy(ops, k, n.store.rows[p]))
            && (forall p | p in n'.store.rows :: n'.store.rows[p] == n.store.rows[p])
            && (forall p | p in n.store.rows && !n.store.rows[p].deleted && n.store.rows[p].kind == KIND_FILE
                           && n.store.rows[p].hash != "" ::
                  var h := n.store.rows[p].hash;
                  p in n'.store.rows && h in n'.store.blobs && n'.store.blobs[h] == n.store.blobs[h])
  {
    hide Collect, BlobsAddressed;
    if k > 0 {
      LivingIsKept(cfg, n, ops, k - 1);
      var before, after := RunOps(cfg, n, ops, k - 1), RunOps(cfg, n, ops, k);
      assert ops[k - 1].Janitor? && after == Collect(before, ops[k - 1].horizon);
      CollectIsExact(cfg, before, ops[k - 1].horizon);
      forall p | p in n.store.rows
        ensures OutlivedBy(ops, k, n.store.rows[p]) <==>
                OutlivedBy(ops, k - 1, n.store.rows[p]) || Outlived(n.store.rows[p], ops[k - 1].horizon)
      {
      }
    }
  }

  /** In every state reachable on one node, whatever its peers serve, content integrity holds. */
  lemma {:induction false} EveryRunKeepsContent(cfg: Config, n: NodeState, ops: seq<NodeOp>, k: nat)
    requires k <= |ops| && forall i | 0 <= i < |ops| :: WellShaped(ops[i])
    requires WellFormed(n.store) && ContentHeld(cfg, n)
    ensures WellFormed(RunOps(cfg, n, ops, k).store) && ContentHeld(cfg, RunOps(cfg, n, ops, k))
  {
    if k > 0 {
      EveryRunKeepsContent(cfg, n, ops, k - 1);
      OpKeepsContent(cfg, RunOps(cfg, n, ops, k - 1), ops[k - 1]);
      hide RunOp, ContentHeld, WellFormed;
    }
  }

  lemma OpKeepsContent(cfg: Config, n: NodeState, op: NodeOp)
    requires WellShaped(op) && WellFormed(n.store) && ContentHeld(cfg, n)
    ensures WellFormed(RunOp(cfg, n, op).store) && ContentHeld(cfg, RunOp(cfg, n, op))
  {
    hide ContentHeld, RunLocal, AccAt, ApplyRemote, Collect;
    OpKeepsFeed(cfg, n, op);
    match op
    case LocalWrite(w, at) => LocalWriteKeepsContent(cfg, n, w, at);
    case OtherPage(entries, inputs) => PageKeepsContent(cfg, n, entries, inputs);
    case Janitor(horizon) => CollectIsExact(cfg, n, horizon);
    case OtherRecord(peer, seen) => BookmarkKeepsContent(cfg, n, peer, seen);
  }

  lemma BookmarkKeepsContent(cfg: Config, n: NodeState, peer: string, seen: int)
    requires ContentHeld(cfg, n)
    ensures ContentHeld(cfg, WithBookmark(n, peer, seen))
  {
  }
}
