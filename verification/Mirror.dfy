/**
 The mirror between the replicated tree and a directory: rendering the tree onto
 the disk, promoting what changed on disk, and the watcher's events.

 What the kernel and the clocks answer (modification times, readings of physical
 time, the order in which a walk visits the disk) are parameters.
 */
module Mirror {
  import opened Order
  import opened Hlc
  import opened Path
  import opened Entry
  import opened Store
  import opened Node
  import opened Disk
  import opened Service

  /** writes counts the files written so far. */
  datatype View = View(disk: DiskMap, canChown: bool, writes: nat)

  predicate IsLive(rows: Rows, p: string)
  {
    p in rows && !rows[p].deleted
  }

  predicate IsTombstone(rows: Rows, p: string)
  {
    p in rows && rows[p].deleted
  }

  function LivePaths(rows: Rows): set<string>
  {
    set p | p in rows && !rows[p].deleted
  }

  /* ----- rendering one entry ----- */

  function ApplyMeta(env: Env, v: View, p: string, e: Meta): View
  {
    if p !in v.disk then v
    else
      var node := Chmod(v.disk[p], e.mode);
      if !v.canChown then v.(disk := v.disk[p := node])
      else if env.mayChown(e.uid, e.gid) then v.(disk := v.disk[p := Chown(node, e.uid, e.gid)])
      else v.(disk := v.disk[p := node], canChown := false)
  }

  function RenderDir(env: Env, v: View, p: string, e: Meta): View
  {
    var made := MkdirAll(env, v.disk, p, e.mode);
    if made.Refused? then v
    else ApplyMeta(env, if made.Made? then v.(disk := made.disk) else v, p, e)
  }

  /** The file on disk already has the entry's content. */
  predicate SameContent(cfg: Config, disk: DiskMap, p: string, e: Meta)
  {
    p in disk && disk[p].File? && cfg.hash(disk[p].content) == e.hash
  }

  function RenderFile(cfg: Config, env: Env, blobs: map<string, Bytes>, v: View, p: string, e: Meta): View
  {
    if SameContent(cfg, v.disk, p, e) then ApplyMeta(env, v, p, e)
    else if Blocked(v.disk, p) || (p in v.disk && !v.disk[p].File?) then v
    else if e.hash !in blobs then v
    else
      var (ok, disk) := WriteAtomic(env, v.disk, p, blobs[e.hash], e.mode);
      if ok then ApplyMeta(env, v.(disk := disk, writes := v.writes + 1), p, e) else v.(disk := disk)
  }

  function RenderOne(cfg: Config, env: Env, inflight: set<string>, n: NodeState, v: View, p: string): View
  {
    if p in inflight || p !in n.store.rows then v
    else
      var e := n.store.rows[p];
      if e.kind == KIND_DIR then RenderDir(env, v, p, e)
      else if e.kind == KIND_FILE then RenderFile(cfg, env, n.store.blobs, v, p, e)
      else v
  }

  function RenderUpTo(cfg: Config, env: Env, inflight: set<string>, n: NodeState, v: View, paths: seq<string>,
                      k: nat): View
    requires k <= |paths|
  {
    if k == 0 then v
    else RenderOne(cfg, env, inflight, n, RenderUpTo(cfg, env, inflight, n, v, paths, k - 1), paths[k - 1])
  }

  /** The disk once every live entry has been rendered. */
  ghost function WriteAll(cfg: Config, env: Env, inflight: set<string>, n: NodeState, v: View): View
  {
    var paths := Ascending(LivePaths(n.store.rows));
    RenderUpTo(cfg, env, inflight, n, v, paths, |paths|)
  }

  /* ----- removing what is gone ----- */

  /** Visited by a walk of the disk. */
  predicate Walked(disk: DiskMap, p: string)
  {
    p in disk && !IsScratch(p) && !disk[p].Other? && SanitizePath(p).Ok?
  }

  predicate IsDoomed(rows: Rows, inflight: set<string>, disk: DiskMap, p: string)
  {
    Walked(disk, p) && p !in inflight && IsTombstone(rows, p)
  }

  function Doomed(rows: Rows, inflight: set<string>, disk: DiskMap): set<string>
  {
    set p | p in disk && IsDoomed(rows, inflight, disk, p)
  }

  function RemoveUpTo(disk: DiskMap, list: seq<string>, k: nat): DiskMap
    requires k <= |list|
  {
    if k == 0 then disk else Remove(RemoveUpTo(disk, list, k - 1), list[k - 1])
  }

  ghost function RemoveGone(rows: Rows, inflight: set<string>, disk: DiskMap): DiskMap
  {
    var list := Descending(Doomed(rows, inflight, disk));
    RemoveUpTo(disk, list, |list|)
  }

  ghost function Render(cfg: Config, env: Env, inflight: set<string>, n: NodeState, v: View): View
  {
    var written := WriteAll(cfg, env, inflight, n, v);
    written.(disk := RemoveGone(n.store.rows, inflight, written.disk))
  }

  /* ----- promoting what is on disk ----- */

  function Perm(node: DiskNode): bv32
    requires !node.Other?
  {
    node.mode & PERM_BITS
  }

  /** What a promotion reads besides disk and tree: modification time, and the clocks. */
  datatype Sight = Sight(modTime: int, deletedAt: int, at: int64)

  predicate DiskIsNewer(rows: Rows, p: string, modTime: int)
  {
    p !in rows || (!rows[p].deleted && modTime > rows[p].version.hlc.wall)
  }

  function OwnershipFor(canChown: bool, rows: Rows, p: string, node: DiskNode): (uint32, uint32)
    requires !node.Other?
  {
    if !canChown && p in rows then (rows[p].uid, rows[p].gid) else (node.uid, node.gid)
  }

  function Promote(cfg: Config, n: NodeState, v: View, p: string, isDir: bool, sight: Sight): NodeState
  {
    if p !in v.disk || v.disk[p].Other? || !DiskIsNewer(n.store.rows, p, sight.modTime) then n
    else
      var node := v.disk[p];
      var (uid, gid) := OwnershipFor(v.canChown, n.store.rows, p, node);
      if isDir then DoPutDir(cfg, n, p, Perm(node), uid, gid, sight.at).node
      else if node.Directory? || |node.content| > cfg.maxFileSize then n
      else DoPutFile(cfg, n, p, node.content, Perm(node), uid, gid, sight.at).node
  }

  function ScanUpTo(cfg: Config, n: NodeState, v: View, order: seq<string>, sights: seq<Sight>, k: nat): NodeState
    requires k <= |order| == |sights|
  {
    if k == 0 then n
    else
      var before, p := ScanUpTo(cfg, n, v, order, sights, k - 1), order[k - 1];
      Promote(cfg, before, v, p, p in v.disk && v.disk[p].Directory?, sights[k - 1])
  }

  /* ----- the watcher's events ----- */

  datatype Event = Event(path: string, removed: bool)

  /** The batch lists each path once, as every batch the watcher hands over does (Watch.Lists). */
  predicate ListsOnce(batch: seq<Event>)
  {
    forall i, j | 0 <= i < j < |batch| :: batch[i].path != batch[j].path
  }

  function ApplyEvent(cfg: Config, n: NodeState, v: View, ev: Event, sight: Sight): NodeState
  {
    var p := ev.path;
    if p in v.disk then
      if ev.removed then Promote(cfg, n, v, p, false, sight)
      else Promote(cfg, n, v, p, v.disk[p].Directory?, sight)
    else if !ev.removed && Blocked(v.disk, p) then n
    else DoDelete(cfg, n, p, sight.deletedAt, sight.at).node
  }

  function ApplyEventsUpTo(cfg: Config, n: NodeState, v: View, batch: seq<Event>, sights: seq<Sight>, k: nat): NodeState
    requires k <= |batch| == |sights|
  {
    if k == 0 then n
    else ApplyEvent(cfg, ApplyEventsUpTo(cfg, n, v, batch, sights, k - 1), v, batch[k - 1], sights[k - 1])
  }

  function PathsOf(batch: seq<Event>): set<string>
  {
    set i | 0 <= i < |batch| :: batch[i].path
  }

  /* ----- the mirror, updating disk and claims in place ----- */

  class Mirror {
    const env: Env
    const tree: Service
    var disk: DiskMap
    var canChown: bool
    var writes: nat
    var inflight: set<string>

    constructor (env: Env, tree: Service, disk: DiskMap)
      ensures this.env == env && this.tree == tree && inflight == {}
      ensures Now() == View(disk, env.uid == 0, 0)
    {
      this.env, this.tree, this.disk := env, tree, disk;
      canChown, writes, inflight := env.uid == 0, 0, {};
    }

    function Now(): View
      reads this
    {
      View(disk, canChown, writes)
    }

    method MarkInflight(p: string)
      modifies this`inflight
      ensures inflight == old(inflight) + {p}
    {
      inflight := inflight + {p};
    }

    method ClearInflight(p: string)
      modifies this`inflight
      ensures inflight == old(inflight) - {p}
    {
      inflight := inflight - {p};
    }

    method SetMeta(p: string, e: Meta)
      modifies this`disk, this`canChown
      ensures Now() == ApplyMeta(env, old(Now()), p, e)
    {
      if p !in disk {
        return;
      }
      disk := disk[p := Chmod(disk[p], e.mode)];
      if canChown {
        if env.mayChown(e.uid, e.gid) {
          disk := disk[p := Chown(disk[p], e.uid, e.gid)];
        } else {
          canChown := false;
        }
      }
    }

    method RenderDirectory(p: string, e: Meta)
      modifies this`disk, this`canChown
      ensures Now() == RenderDir(env, old(Now()), p, e)
    {
      var made := MkdirAll(env, disk, p, e.mode);
      if made.Refused? {
        return;
      }
      if made.Made? {
        disk := made.disk;
      }
      SetMeta(p, e);
    }

    method RenderRegular(p: string, e: Meta)
      modifies this`disk, this`canChown, this`writes
      ensures Now() == RenderFile(tree.cfg, env, tree.store.blobs, old(Now()), p, e)
    {
      if SameContent(tree.cfg, disk, p, e) {
        SetMeta(p, e);
        return;
      }
      if Blocked(disk, p) || (p in disk && !disk[p].File?) {
        return;
      }
      if e.hash !in tree.store.blobs {
        return;
      }
      var (ok, written) := WriteAtomic(env, disk, p, tree.store.blobs[e.hash], e.mode);
      disk := written;
      if !ok {
        return;
      }
      writes := writes + 1;
      SetMeta(p, e);
    }

    /** Writes the tree out to disk, and removes what tombstones say is gone. */
    method RenderTree()
      modifies this`disk, this`canChown, this`writes
      ensures Now() == Render(tree.cfg, env, inflight, tree.State(), old(Now()))
    {
      hide RenderDir, RenderFile, RemoveGone, Ascending, Less;
      ghost var was, n := Now(), tree.State();
      var live := set p | p in tree.store.rows && !tree.store.rows[p].deleted;
      var paths := SortAscending(live);
      assert live == LivePaths(n.store.rows);
      AscendingIsSorted(live);
      for i := 0 to |paths|
        invariant Now() == RenderUpTo(tree.cfg, env, inflight, n, was, paths, i)
        invariant inflight == old(inflight)
      {
        var p := paths[i];
        assert p in live;
        if p !in inflight {
          var e := tree.store.rows[p];
          if e.kind == KIND_DIR {
            RenderDirectory(p, e);
          } else if e.kind == KIND_FILE {
            RenderRegular(p, e);
          }
        }
      }
      RemoveTombstoned();
    }

    method RemoveTombstoned()
      modifies this`disk
      ensures disk == RemoveGone(tree.store.rows, inflight, old(disk))
    {
      var doomed := set p | p in disk && IsDoomed(tree.store.rows, inflight, disk, p);
      assert doomed == Doomed(tree.store.rows, inflight, disk);
      var list := SortDescending(doomed);
      for i := 0 to |list|
        invariant disk == RemoveUpTo(old(disk), list, i)
      {
        disk := Remove(disk, list[i]);
      }
    }

    /** Offers one local path to the tree; the tree decides whether it is a change. */
    method Offer(p: string, isDir: bool, sight: Sight)
      modifies tree.clock, tree.store
      ensures tree.State() == Promote(tree.cfg, old(tree.State()), Now(), p, isDir, sight)
    {
      hide SanitizePath, SanitizeMode, DoPutDir, DoPutFile, DiskIsNewer, OwnershipFor, Perm;
      if p !in disk || disk[p].Other? {
        return;
      }
      if !DiskIsNewer(tree.store.rows, p, sight.modTime) {
        return;
      }
      var node := disk[p];
      var (uid, gid) := OwnershipFor(canChown, tree.store.rows, p, node);
      if isDir {
        var _ := tree.PutDir(p, Perm(node), uid, gid, sight.at);
        return;
      }
      if node.Directory? || |node.content| > tree.cfg.maxFileSize {
        return;
      }
      var _ := tree.PutFile(p, node.content, Perm(node), uid, gid, sight.at);
    }

    /** Promotes everything a walk of the disk visits; never deletes from the tree. */
    method Scan(order: seq<string>, sights: seq<Sight>)
      requires |order| == |sights|
      modifies tree.clock, tree.store
      ensures tree.State() == ScanUpTo(tree.cfg, old(tree.State()), Now(), order, sights, |order|)
    {
      for i := 0 to |order|
        invariant tree.State() == ScanUpTo(tree.cfg, old(tree.State()), Now(), order, sights, i)
      {
        Offer(order[i], order[i] in disk && disk[order[i]].Directory?, sights[i]);
      }
    }

    /** Promotes changed paths and tombstones removed ones, then gives up the claims on them. */
    method ApplyEvents(batch: seq<Event>, sights: seq<Sight>)
      requires |batch| == |sights|
      modifies this`inflight, tree.clock, tree.store
      ensures tree.State() == ApplyEventsUpTo(tree.cfg, old(tree.State()), Now(), batch, sights, |batch|)
      ensures inflight == old(inflight) - PathsOf(batch)
    {
      hide DoDelete, Promote, Blocked;
      for i := 0 to |batch|
        invariant tree.State() == ApplyEventsUpTo(tree.cfg, old(tree.State()), Now(), batch, sights, i)
        invariant inflight == old(inflight)
      {
        var ev, sight := batch[i], sights[i];
        if ev.path in disk {
          Offer(ev.path, !ev.removed && disk[ev.path].Directory?, sight);
        } else if ev.removed || !Blocked(disk, ev.path) {
          var _ := tree.Delete(ev.path, sight.deletedAt, sight.at);
        }
      }
      for i := 0 to |batch|
        invariant tree.State() == ApplyEventsUpTo(tree.cfg, old(tree.State()), Now(), batch, sights, |batch|)
        invariant inflight == old(inflight) - PathsOf(batch[..i])
      {
        assert PathsOf(batch[..i + 1]) == PathsOf(batch[..i]) + {batch[i].path};
        ClearInflight(batch[i].path);
      }
      assert batch[..|batch|] == batch;
    }
  }
}
