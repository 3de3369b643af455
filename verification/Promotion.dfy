/**
 What gets from the disk into the tree: of every path a scan visits or an event names,
 exactly what the tree holds afterwards.
 */
module Promotion {
  import opened Hlc
  import opened Path
  import opened Entry
  import opened Store
  import opened Node
  import opened Integrity
  import opened Disk
  import opened Mirror

  /** The tree has never had the path, or has it live from before the disk was last written there. */
  predicate DiskWins(rows: Rows, p: string, modTime: int)
  {
    p in rows ==> !rows[p].deleted && rows[p].version.hlc.wall < modTime
  }

  /** What stands at p goes into the tree. */
  predicate IsOffered(cfg: Config, n: NodeState, v: View, p: string, sight: Sight)
  {
    && p in v.disk && !v.disk[p].Other? && DiskWins(n.store.rows, p, sight.modTime) && SanitizePath(p).Ok?
    && (v.disk[p].File? ==> |v.disk[p].content| <= cfg.maxFileSize)
  }

  /** A live row with the kind, content and permissions of what stands at p, owned as given. */
  predicate HoldsNode(n: NodeState, p: string, node: DiskNode, uid: uint32, gid: uint32)
    requires !node.Other?
  {
    && p in n.store.rows
    && var m := n.store.rows[p];
       && !m.deleted && m.mode == node.mode & 0x1FF && m.uid == uid && m.gid == gid
       && match node
          case File(content, _, _, _) =>
            m.kind == KIND_FILE && m.hash in n.store.blobs && n.store.blobs[m.hash] == content
          case Directory(_, _, _) => m.kind == KIND_DIR
  }

  /**
   The owner is the disk's, except that a process that may not change owners sees its
   own there and keeps the tree's, if the tree has one.
   */
  predicate Adopted(n: NodeState, v: View, p: string, n': NodeState)
    requires p in v.disk && !v.disk[p].Other?
  {
    var node := v.disk[p];
    if v.canChown || p !in n.store.rows then HoldsNode(n', p, node, node.uid, node.gid)
    else HoldsNode(n', p, node, n.store.rows[p].uid, n.store.rows[p].gid)
  }

  /** How the tree at p, and nowhere else, comes to agree with the disk there. */
  predicate Settles(cfg: Config, n: NodeState, v: View, p: string, sight: Sight, n': NodeState)
  {
    if IsOffered(cfg, n, v, p, sight) then Adopted(n, v, p, n') else Get(n'.store, p) == Get(n.store, p)
  }

  ghost predicate TouchesOnly(n: NodeState, n': NodeState, p: string)
  {
    && (forall q | q != p :: Get(n'.store, q) == Get(n.store, q))
    && (forall h | h in n.store.blobs :: h in n'.store.blobs && n'.store.blobs[h] == n.store.blobs[h])
  }

  lemma PermIsPlain(node: DiskNode)
    requires !node.Other?
    ensures SanitizeMode(Perm(node)) == Perm(node) == node.mode & 0x1FF
  {
  }

  ghost predicate Ready(cfg: Config, n: NodeState)
  {
    WellFiled(n.store.rows) && ContentHeld(cfg, n)
  }

  /** Hashing is injective, and never yields the empty hash. */
  ghost predicate GoodHash(cfg: Config)
  {
    ContentInjective(cfg) && forall content :: cfg.hash(content) != ""
  }

  /** A local write loses no content, and leaves the node in order. */
  lemma PutKeeps(cfg: Config, n: NodeState, op: LocalOp, at: int64)
    requires Ready(cfg, n)
    ensures var n' := RunLocal(cfg, n, op, at).node; Ready(cfg, n') && TouchesOnly(n, n', op.path)
  {
    WriteLands(cfg, n, op, at);
    LocalWriteKeepsContent(cfg, n, op, at);
    hide SanitizePath, SanitizeMode, Tick, ContentHeld, Upsert;
  }

  lemma FileGoesIn(cfg: Config, n: NodeState, p: string, node: DiskNode, uid: uint32, gid: uint32, at: int64)
    requires GoodHash(cfg) && Ready(cfg, n) && node.File?
    ensures var n' := DoPutFile(cfg, n, p, node.content, Perm(node), uid, gid, at).node;
            && Ready(cfg, n') && TouchesOnly(n, n', p)
            && if SanitizePath(p).Ok? && |node.content| <= cfg.maxFileSize then HoldsNode(n', p, node, uid, gid)
               else n' == n
  {
    hide SanitizePath, SanitizeMode, ContentInjective, Tick, DoPutFile, BlobsAddressed, TouchesOnly;
    PermIsPlain(node);
    assert p in n.store.rows ==> Servable(n.store.blobs, n.store.rows[p]);
    PutFileReadsBack(cfg, n, p, node.content, Perm(node), uid, gid, at, at);
    PutKeeps(cfg, n, PutFile(p, node.content, Perm(node), uid, gid), at);
  }

  lemma DirGoesIn(cfg: Config, n: NodeState, p: string, node: DiskNode, uid: uint32, gid: uint32, at: int64)
    requires Ready(cfg, n) && node.Directory?
    ensures var n' := DoPutDir(cfg, n, p, Perm(node), uid, gid, at).node;
            && Ready(cfg, n') && TouchesOnly(n, n', p)
            && if SanitizePath(p).Ok? then HoldsNode(n', p, node, uid, gid) else n' == n
  {
    hide SanitizePath, SanitizeMode, Tick, DoPutDir, ContentHeld, TouchesOnly;
    PermIsPlain(node);
    PutDirReadsBack(cfg, n, p, Perm(node), uid, gid, at, at);
    PutKeeps(cfg, n, PutDir(p, Perm(node), uid, gid), at);
  }

  lemma StandsStill(n: NodeState, p: string)
    ensures TouchesOnly(n, n, p)
  {
  }

  /**
   Promotion of one path, exactly. A file or directory on disk that is no larger than the
   limit, under an accepted path, gets into the tree if and only if the tree has never
   had the path, or has it live and from before the modification time. Then the tree
   holds its kind, content, permissions and owner; nothing else is touched. Otherwise
   nothing changes at all.
   */
  lemma PromotionIsExact(cfg: Config, n: NodeState, v: View, p: string, sight: Sight)
    requires GoodHash(cfg) && Ready(cfg, n)
    ensures var n' := Promote(cfg, n, v, p, p in v.disk && v.disk[p].Directory?, sight);
            && Settles(cfg, n, v, p, sight, n') && TouchesOnly(n, n', p) && Ready(cfg, n')
            && (!IsOffered(cfg, n, v, p, sight) ==> n' == n)
  {
    hide SanitizePath, GoodHash, Ready, DoPutFile, DoPutDir, HoldsNode, Perm, TouchesOnly;
    StandsStill(n, p);
    if p in v.disk && !v.disk[p].Other? {
      var node := v.disk[p];
      var (uid, gid) := OwnershipFor(v.canChown, n.store.rows, p, node);
      if node.File? {
        FileGoesIn(cfg, n, p, node, uid, gid, sight.at);
      } else {
        DirGoesIn(cfg, n, p, node, uid, gid, sight.at);
      }
    }
  }

  /* ----- a scan, and a batch of events ----- */

  /** n' holds at p what n holds there. */
  predicate SameAt(n: NodeState, n': NodeState, p: string)
  {
    Get(n'.store, p) == Get(n.store, p)
  }

  lemma SettlesLater(cfg: Config, n: NodeState, m: NodeState, v: View, p: string, sight: Sight, m': NodeState)
    requires SameAt(n, m, p) && Settles(cfg, m, v, p, sight, m')
    ensures Settles(cfg, n, v, p, sight, m')
  {
    hide SanitizePath;
  }

  lemma SettledStays(cfg: Config, n: NodeState, v: View, p: string, sight: Sight, n': NodeState, n'': NodeState,
                     q: string)
    requires Settles(cfg, n, v, p, sight, n') && TouchesOnly(n', n'', q) && p != q
    ensures Settles(cfg, n, v, p, sight, n'')
  {
    assert Get(n''.store, p) == Get(n'.store, p);
    hide SanitizePath, IsOffered;
  }

  predicate Distinct(paths: seq<string>)
  {
    forall i, j | 0 <= i < j < |paths| :: paths[i] != paths[j]
  }

  /**
   A scan, exactly. Whatever the order in which a walk visits the disk, each path once:
   after k paths the tree has settled with the disk at each of them, as it stood when the
   scan began, and at no other path has it changed. A scan deletes nothing.
   */
  lemma {:induction false} ScanIsExact(cfg: Config, n: NodeState, v: View, order: seq<string>, sights: seq<Sight>,
                                       k: nat)
    requires k <= |order| == |sights| && Distinct(order)
    requires GoodHash(cfg) && Ready(cfg, n)
    ensures var n' := ScanUpTo(cfg, n, v, order, sights, k);
            && Ready(cfg, n')
            && (forall i | 0 <= i < k :: Settles(cfg, n, v, order[i], sights[i], n'))
            && (forall q | q !in order[..k] :: SameAt(n, n', q))
  {
    hide GoodHash, Ready, Promote, Settles, TouchesOnly;
    if k > 0 {
      ScanIsExact(cfg, n, v, order, sights, k - 1);
      var before, after := ScanUpTo(cfg, n, v, order, sights, k - 1), ScanUpTo(cfg, n, v, order, sights, k);
      var p := order[k - 1];
      PromotionIsExact(cfg, before, v, p, sights[k - 1]);
      assert p !in order[..k - 1];
      SettlesLater(cfg, n, before, v, p, sights[k - 1], after);
      forall i | 0 <= i < k - 1 ensures Settles(cfg, n, v, order[i], sights[i], after) {
        SettledStays(cfg, n, v, order[i], sights[i], before, after, p);
      }
      forall q | q !in order[..k] ensures SameAt(n, after, q) {
        assert order[..k] == order[..k - 1] + [p];
        OthersStay(before, after, p, q);
      }
    }
  }

  lemma OthersStay(n: NodeState, n': NodeState, p: string, q: string)
    requires TouchesOnly(n, n', p) && q != p
    ensures SameAt(n, n', q)
  {
  }

  /** A live row becomes a tombstone that names its content; anything else stays as it is. */
  predicate Removed(n: NodeState, p: string, deletedAt: int, n': NodeState)
  {
    if p in n.store.rows && !n.store.rows[p].deleted && SanitizePath(p).Ok? then
      && p in n'.store.rows
      && var was, m := n.store.rows[p], n'.store.rows[p];
         && m.deleted && m.deletedAt == deletedAt && m.hash == "" && m.prevHash == was.hash && m.kind == was.kind
         && m.mode == was.mode && m.uid == was.uid && m.gid == was.gid
    else SameAt(n, n', p)
  }

  /** What one event does at its path. */
  predicate Answers(cfg: Config, n: NodeState, v: View, ev: Event, sight: Sight, n': NodeState)
  {
    if ev.path !in v.disk && (ev.removed || !Blocked(v.disk, ev.path)) then
      Removed(n, ev.path, sight.deletedAt, n')
    else if ev.removed && ev.path in v.disk && v.disk[ev.path].Directory? then SameAt(n, n', ev.path)
    else Settles(cfg, n, v, ev.path, sight, n')
  }

  lemma EventIsAnswered(cfg: Config, n: NodeState, v: View, ev: Event, sight: Sight)
    requires GoodHash(cfg) && Ready(cfg, n)
    ensures var n' := ApplyEvent(cfg, n, v, ev, sight);
            Answers(cfg, n, v, ev, sight, n') && TouchesOnly(n, n', ev.path) && Ready(cfg, n')
  {
    hide SanitizePath, GoodHash, Blocked, DoDelete, DoPutFile, DoPutDir, BlobsAddressed, Servable, Perm, HoldsNode;
    var p := ev.path;
    StandsStill(n, p);
    if p in v.disk {
      PromotionIsExact(cfg, n, v, p, sight);
    } else {
      FormedAndHeld(cfg, n);
      DeleteLeavesTombstone(cfg, n, p, sight.deletedAt, sight.at, sight.at);
      PutKeeps(cfg, n, Delete(p, sight.deletedAt), sight.at);
    }
  }

  lemma FormedAndHeld(cfg: Config, n: NodeState)
    requires Ready(cfg, n)
    ensures WellFiled(n.store.rows)
  {
  }

  lemma AnswersLater(cfg: Config, n: NodeState, m: NodeState, v: View, ev: Event, sight: Sight, m': NodeState)
    requires SameAt(n, m, ev.path) && Answers(cfg, m, v, ev, sight, m')
    ensures Answers(cfg, n, v, ev, sight, m')
  {
    hide SanitizePath, Blocked;
  }

  lemma AnsweredStays(cfg: Config, n: NodeState, v: View, ev: Event, sight: Sight, n': NodeState, n'': NodeState,
                      q: string)
    requires Answers(cfg, n, v, ev, sight, n') && TouchesOnly(n', n'', q) && ev.path != q
    ensures Answers(cfg, n, v, ev, sight, n'')
  {
    assert Get(n''.store, ev.path) == Get(n'.store, ev.path);
    hide SanitizePath, Blocked, IsOffered;
  }

  /** No event of the batch speaks of q before the k-th. */
  predicate Unmentioned(batch: seq<Event>, k: nat, q: string)
    requires k <= |batch|
  {
    forall i | 0 <= i < k :: batch[i].path != q
  }

  /**
   A batch of events, exactly, when it names each path once: a path that is gone becomes
   a tombstone, one that is there settles with the tree, and no other path is touched.
   */
  lemma {:induction false} EventsAreAnswered(cfg: Config, n: NodeState, v: View, batch: seq<Event>, sights: seq<Sight>,
                                             k: nat)
    requires k <= |batch| == |sights| && ListsOnce(batch)
    requires GoodHash(cfg) && Ready(cfg, n)
    ensures var n' := ApplyEventsUpTo(cfg, n, v, batch, sights, k);
            && Ready(cfg, n')
            && (forall i | 0 <= i < k :: Answers(cfg, n, v, batch[i], sights[i], n'))
            && (forall q | Unmentioned(batch, k, q) :: SameAt(n, n', q))
  {
    hide GoodHash, Ready, ApplyEvent, Answers, TouchesOnly;
    if k > 0 {
      EventsAreAnswered(cfg, n, v, batch, sights, k - 1);
      var before := ApplyEventsUpTo(cfg, n, v, batch, sights, k - 1);
      var after := ApplyEventsUpTo(cfg, n, v, batch, sights, k);
      var ev := batch[k - 1];
      EventIsAnswered(cfg, before, v, ev, sights[k - 1]);
      assert Unmentioned(batch, k - 1, ev.path);
      AnswersLater(cfg, n, before, v, ev, sights[k - 1], after);
      forall i | 0 <= i < k - 1 ensures Answers(cfg, n, v, batch[i], sights[i], after) {
        AnsweredStays(cfg, n, v, batch[i], sights[i], before, after, ev.path);
      }
      forall q | Unmentioned(batch, k, q) ensures SameAt(n, after, q) {
        assert Unmentioned(batch, k - 1, q);
        OthersStay(before, after, ev.path, q);
      }
    }
  }
}
