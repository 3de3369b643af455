/**
 The echo loop has a fixed point: what the mirror writes to disk comes back to it
 as scans and events, and none of that writes anything again.
 */
module Echo {
  import opened Order
  import opened Hlc
  import opened Path
  import opened Entry
  import opened Store
  import opened Node
  import opened Disk
  import opened Mirror
  import opened RenderFacts
  import opened RenderPost

  /* ----- the fixed point ----- */

  predicate Owned(env: Env, v: View, p: string, e: Meta)
    requires p in v.disk && !v.disk[p].Other?
  {
    v.canChown ==> env.mayChown(e.uid, e.gid) && v.disk[p].uid == e.uid && v.disk[p].gid == e.gid
  }

  predicate ShownAt(cfg: Config, env: Env, v: View, p: string, e: Meta)
  {
    InPlace(cfg, v.disk, p, e) && PlainMode(e.mode) && Owned(env, v, p, e)
  }

  /** A live file that is not on disk and cannot be written, though the way there is clear. */
  predicate Stuck(disk: DiskMap, blobs: map<string, Bytes>, p: string, e: Meta)
  {
    && e.kind == KIND_FILE && p !in disk && !CanWrite(disk, blobs, p, e)
    && forall a | a in Ancestors(p) :: a in disk && disk[a].Directory?
  }

  predicate AtRest(cfg: Config, env: Env, n: NodeState, v: View, p: string)
    requires p in n.store.rows
  {
    ShownAt(cfg, env, v, p, n.store.rows[p]) || Stuck(v.disk, n.store.blobs, p, n.store.rows[p])
  }

  /** Disk and tree agree, but for files that cannot be written, and no removal is possible. */
  ghost predicate Settled(cfg: Config, env: Env, n: NodeState, v: View)
  {
    && IsTree(v.disk)
    && (forall p | IsLive(n.store.rows, p) :: AtRest(cfg, env, n, v, p))
    && (forall p | Walked(v.disk, p) :: p in n.store.rows)
    && (forall p | p in v.disk :: !Clears(v.disk, Doomed(n.store.rows, {}, v.disk), p))
  }

  lemma PlainIsKept(mode: bv32)
    requires PlainMode(mode)
    ensures SanitizeMode(mode) == mode && mode & PERM_BITS == mode && SanitizeMode(mode & PERM_BITS) == mode
  {
  }

  lemma SettledMeta(cfg: Config, env: Env, v: View, p: string, e: Meta)
    requires ShownAt(cfg, env, v, p, e)
    ensures ApplyMeta(env, v, p, e) == v
  {
    PlainIsKept(e.mode);
    hide PlainMode, SanitizeMode;
    assert v.disk[p := v.disk[p]] == v.disk;
  }

  lemma StuckStays(cfg: Config, env: Env, inflight: set<string>, n: NodeState, v: View, p: string)
    requires p in n.store.rows && Stuck(v.disk, n.store.blobs, p, n.store.rows[p])
    ensures RenderOne(cfg, env, inflight, n, v, p) == v
  {
    hide PlainMode, NameFits, ScratchOf, Ancestors;
    CanPlaceExactly(cfg, v.disk, n.store.blobs, p, n.store.rows[p]);
    assert WithDirs(env, v.disk, Ancestors(p), DIR_MODE) == v.disk;
    hide WithDirs, ApplyMeta;
  }

  lemma SettledOne(cfg: Config, env: Env, inflight: set<string>, n: NodeState, v: View, p: string)
    requires IsTree(v.disk) && IsLive(n.store.rows, p) && AtRest(cfg, env, n, v, p)
    ensures RenderOne(cfg, env, inflight, n, v, p) == v
  {
    hide Stuck, ShownAt, RenderOne, IsTree;
    if Stuck(v.disk, n.store.blobs, p, n.store.rows[p]) {
      StuckStays(cfg, env, inflight, n, v, p);
    } else {
      ShownStill(cfg, env, inflight, n, v, p);
    }
  }

  lemma ShownStill(cfg: Config, env: Env, inflight: set<string>, n: NodeState, v: View, p: string)
    requires IsTree(v.disk) && IsLive(n.store.rows, p) && ShownAt(cfg, env, v, p, n.store.rows[p])
    ensures RenderOne(cfg, env, inflight, n, v, p) == v
  {
    var e := n.store.rows[p];
    SettledMeta(cfg, env, v, p, e);
    TreeIsNotBlocked(v.disk, p);
    forall a | a in Ancestors(p) ensures a in v.disk {
      AncestorsExact(p, a);
    }
    hide IsTree, PlainMode, SanitizeMode, Ancestors, Blocked, ApplyMeta, WriteAtomic;
    assert WithDirs(env, v.disk, Ancestors(p) + {p}, e.mode) == v.disk;
  }

  lemma {:induction false} SettledUpTo(cfg: Config, env: Env, inflight: set<string>, n: NodeState, v: View,
                                       paths: seq<string>, k: nat)
    requires k <= |paths| && Settled(cfg, env, n, v)
    requires forall i | 0 <= i < |paths| :: IsLive(n.store.rows, paths[i])
    ensures RenderUpTo(cfg, env, inflight, n, v, paths, k) == v
  {
    hide AtRest, IsTree, Clears, Doomed, Walked, RenderOne;
    if k > 0 {
      SettledUpTo(cfg, env, inflight, n, v, paths, k - 1);
      SettledOne(cfg, env, inflight, n, v, paths[k - 1]);
    }
  }

  lemma SettledWrites(cfg: Config, env: Env, inflight: set<string>, n: NodeState, v: View)
    requires Settled(cfg, env, n, v)
    ensures WriteAll(cfg, env, inflight, n, v) == v
  {
    hide Settled, Ascending, RenderUpTo;
    var live := LivePaths(n.store.rows);
    AscendingIsSorted(live);
    forall i | 0 <= i < |Ascending(live)| ensures IsLive(n.store.rows, Ascending(live)[i]) {
      assert Ascending(live)[i] in live;
    }
    SettledUpTo(cfg, env, inflight, n, v, Ascending(live), |Ascending(live)|);
  }

  /** Claims only make fewer paths doomed. */
  lemma ClearsByFewer(disk: DiskMap, some: set<string>, all: set<string>, p: string)
    requires some <= all && Clears(disk, some, p)
    ensures Clears(disk, all, p)
  {
    hide IsBelow;
  }

  lemma SettledRemoval(cfg: Config, env: Env, inflight: set<string>, n: NodeState, v: View)
    requires Settled(cfg, env, n, v)
    ensures RemoveGone(n.store.rows, inflight, v.disk) == v.disk
  {
    var doomed, all := Doomed(n.store.rows, inflight, v.disk), Doomed(n.store.rows, {}, v.disk);
    assert doomed <= all;
    hide IsTree, AtRest, Walked, Clears, Doomed, RemoveGone;
    RemovalByDoom(n.store.rows, inflight, v.disk);
    forall p | p in v.disk ensures p in RemoveGone(n.store.rows, inflight, v.disk) {
      if Clears(v.disk, doomed, p) {
        ClearsByFewer(v.disk, doomed, all, p);
      }
    }
  }

  /** Whatever is in flight, a render of a settled state does nothing: no file written, none removed. */
  lemma SettledRender(cfg: Config, env: Env, inflight: set<string>, n: NodeState, v: View)
    requires Settled(cfg, env, n, v)
    ensures Render(cfg, env, inflight, n, v) == v
  {
    hide Settled, WriteAll, RemoveGone;
    SettledWrites(cfg, env, inflight, n, v);
    SettledRemoval(cfg, env, inflight, n, v);
  }

  lemma SettledPromote(cfg: Config, env: Env, n: NodeState, v: View, p: string, isDir: bool, sight: Sight)
    requires Settled(cfg, env, n, v) && !IsScratch(p)
    requires isDir ==> p in v.disk && v.disk[p].Directory?
    ensures Promote(cfg, n, v, p, isDir, sight) == n
  {
    hide IsTree, Clears, Doomed, IsScratch, SanitizePath;
    if p in v.disk && !v.disk[p].Other? && SanitizePath(p).Ok? {
      assert Walked(v.disk, p);
      if IsLive(n.store.rows, p) {
        var e := n.store.rows[p];
        assert AtRest(cfg, env, n, v, p);
        PlainIsKept(e.mode);
      }
    }
    hide SanitizeMode, PlainMode, Settled;
  }

  /**
   When the mirror's own write comes back as a newer file, offering it is a no-op
   exactly when its mode has no bits beyond 0777 and, where this node sets owners,
   its owner is the tree's.
   */
  lemma EchoIsSilent(cfg: Config, n: NodeState, v: View, p: string, sight: Sight)
    requires IsLive(n.store.rows, p) && n.store.rows[p].kind == KIND_FILE && InPlace(cfg, v.disk, p, n.store.rows[p])
    requires SanitizeMode(n.store.rows[p].mode) == n.store.rows[p].mode && WellFiled(n.store.rows)
    requires SanitizePath(p).Ok? && |v.disk[p].content| <= cfg.maxFileSize
    requires sight.modTime > n.store.rows[p].version.hlc.wall
    ensures var e, node := n.store.rows[p], v.disk[p];
            Promote(cfg, n, v, p, false, sight) == n <==>
            PlainMode(e.mode) && (v.canChown ==> node.uid == e.uid && node.gid == e.gid)
  {
    hide SanitizePath, SanitizeMode, PlainMode, DoPutFile, Perm;
    var e, node := n.store.rows[p], v.disk[p];
    var (uid, gid) := OwnershipFor(v.canChown, n.store.rows, p, node);
    PermOfSanitized(node);
    OfferIsSilent(cfg, n, p, node.content, Perm(node), uid, gid, sight.at);
  }

  /** Offering a live file its own content writes nothing exactly when the metadata agree too. */
  lemma OfferIsSilent(cfg: Config, n: NodeState, p: string, content: Bytes, mode: bv32, uid: uint32, gid: uint32,
                      at: int64)
    requires IsLive(n.store.rows, p) && n.store.rows[p].kind == KIND_FILE && cfg.hash(content) == n.store.rows[p].hash
    requires SanitizePath(p).Ok? && |content| <= cfg.maxFileSize && WellFiled(n.store.rows)
    ensures var e := n.store.rows[p];
            DoPutFile(cfg, n, p, content, mode, uid, gid, at).node == n <==>
            SanitizeMode(mode) == e.mode && uid == e.uid && gid == e.gid
  {
    WriteLands(cfg, n, PutFile(p, content, mode, uid, gid), at);
    hide SanitizePath, SanitizeMode, Tick, Apply, WithBlob;
  }

  lemma PermOfSanitized(node: DiskNode)
    requires !node.Other?
    ensures SanitizeMode(Perm(node)) == node.mode <==> PlainMode(node.mode)
  {
  }

  lemma SettledDelete(cfg: Config, n: NodeState, p: string, sight: Sight)
    requires !IsLive(n.store.rows, p)
    ensures DoDelete(cfg, n, p, sight.deletedAt, sight.at).node == n
  {
    hide SanitizePath;
  }

  lemma {:induction false} SettledScan(cfg: Config, env: Env, n: NodeState, v: View, order: seq<string>,
                                       sights: seq<Sight>, k: nat)
    requires k <= |order| == |sights| && Settled(cfg, env, n, v)
    requires forall i | 0 <= i < |order| :: !IsScratch(order[i])
    ensures ScanUpTo(cfg, n, v, order, sights, k) == n
  {
    hide Settled, Promote, IsScratch;
    if k > 0 {
      SettledScan(cfg, env, n, v, order, sights, k - 1);
      var p := order[k - 1];
      SettledPromote(cfg, env, n, v, p, p in v.disk && v.disk[p].Directory?, sights[k - 1]);
    }
  }

  lemma {:induction false} SettledEvents(cfg: Config, env: Env, n: NodeState, v: View, batch: seq<Event>,
                                         sights: seq<Sight>, k: nat)
    requires k <= |batch| == |sights| && Settled(cfg, env, n, v)
    requires forall i | 0 <= i < |batch| :: Speaks(n, v, batch[i].path)
    ensures ApplyEventsUpTo(cfg, n, v, batch, sights, k) == n
  {
    hide Settled, Promote, IsScratch, DoDelete, Blocked, IsLive;
    if k > 0 {
      SettledEvents(cfg, env, n, v, batch, sights, k - 1);
      var ev, p := batch[k - 1], batch[k - 1].path;
      if p in v.disk {
        SettledPromote(cfg, env, n, v, p, !ev.removed && v.disk[p].Directory?, sights[k - 1]);
      } else {
        SettledDelete(cfg, n, p, sights[k - 1]);
      }
    }
  }

  /* ----- the run loop ----- */

  datatype LoopStep =
    | Rescan(order: seq<string>, sights: seq<Sight>)
    | Replay(batch: seq<Event>, sights: seq<Sight>)
    | Rerender(inflight: set<string>)

  /**
   What events there can be while the user changes nothing: of paths on disk, and of
   paths the mirror has removed. Its own scratch files the watcher leaves out.
   */
  predicate Speaks(n: NodeState, v: View, p: string)
  {
    !IsScratch(p) && (p in v.disk || !IsLive(n.store.rows, p))
  }

  predicate Shaped(a: LoopStep)
  {
    match a
    case Rescan(order, sights) => |order| == |sights|
    case Replay(batch, sights) => |batch| == |sights|
    case Rerender(_) => true
  }

  predicate FromDisk(n: NodeState, v: View, a: LoopStep)
  {
    && (a.Rescan? ==> forall i | 0 <= i < |a.order| :: !IsScratch(a.order[i]))
    && (a.Replay? ==> forall i | 0 <= i < |a.batch| :: Speaks(n, v, a.batch[i].path))
  }

  datatype MirrorState = MirrorState(node: NodeState, view: View)

  ghost function Turn(cfg: Config, env: Env, s: MirrorState, a: LoopStep): MirrorState
    requires Shaped(a)
  {
    match a
    case Rescan(order, sights) => s.(node := ScanUpTo(cfg, s.node, s.view, order, sights, |order|))
    case Replay(batch, sights) => s.(node := ApplyEventsUpTo(cfg, s.node, s.view, batch, sights, |batch|))
    case Rerender(inflight) => s.(view := Render(cfg, env, inflight, s.node, s.view))
  }

  ghost function Turns(cfg: Config, env: Env, s: MirrorState, run: seq<LoopStep>): MirrorState
    requires forall i | 0 <= i < |run| :: Shaped(run[i])
    decreases |run|
  {
    if run == [] then s else Turns(cfg, env, Turn(cfg, env, s, run[0]), run[1..])
  }

  lemma {:induction false} SettledForever(cfg: Config, env: Env, s: MirrorState, run: seq<LoopStep>)
    requires Settled(cfg, env, s.node, s.view)
    requires forall i | 0 <= i < |run| :: Shaped(run[i])
    requires forall i | 0 <= i < |run| :: FromDisk(s.node, s.view, run[i])
    ensures Turns(cfg, env, s, run) == s
    decreases |run|
  {
    hide Settled, ScanUpTo, ApplyEventsUpTo, Render, IsScratch, Speaks;
    if run != [] {
      assert Shaped(run[0]) && FromDisk(s.node, s.view, run[0]);
      match run[0] {
        case Rescan(order, sights) => SettledScan(cfg, env, s.node, s.view, order, sights, |order|);
        case Replay(batch, sights) => SettledEvents(cfg, env, s.node, s.view, batch, sights, |batch|);
        case Rerender(inflight) => SettledRender(cfg, env, inflight, s.node, s.view);
      }
      SettledForever(cfg, env, s, run[1..]);
    }
  }

  /* ----- the first render settles ----- */

  lemma MetaOwns(cfg: Config, env: Env, v: View, p: string, e: Meta)
    requires p in v.disk && !v.disk[p].Other?
    ensures var v' := ApplyMeta(env, v, p, e);
            && p in v'.disk && !v'.disk[p].Other?
            && (v'.canChown ==> v.canChown) && Owned(env, v', p, e)
  {
    hide SanitizeMode;
  }

  /** Rendering a path sets its owner, unless the process turns out not to be able to. */
  lemma OneOwned(cfg: Config, env: Env, n: NodeState, v: View, p: string)
    requires IsTree(v.disk) && p in n.store.rows && Carried(p)
    requires CanPlace(cfg, v.disk, n.store.blobs, p, n.store.rows[p])
    ensures var v' := RenderOne(cfg, env, {}, n, v, p);
            && p in v'.disk && !v'.disk[p].Other?
            && (v'.canChown ==> v.canChown) && Owned(env, v', p, n.store.rows[p])
  {
    var e, blobs := n.store.rows[p], n.store.blobs;
    hide IsTree, PlainMode, SanitizeMode, Carried, Blocked, ApplyMeta, WriteAtomic, Ancestors, ScratchOf, NameFits,
      Owned;
    if e.kind == KIND_DIR {
      var made := MkdirAll(env, v.disk, p, e.mode);
      WithDirsIs(env, v.disk, Ancestors(p) + {p}, e.mode);
      hide WithDirs;
      MetaOwns(cfg, env, v.(disk := made.disk), p, e);
    } else if SameContent(cfg, v.disk, p, e) {
      MetaOwns(cfg, env, v, p, e);
    } else {
      FileWritten(env, v.disk, p, blobs[e.hash], e.mode);
      var (ok, disk) := WriteAtomic(env, v.disk, p, blobs[e.hash], e.mode);
      MetaOwns(cfg, env, v.(disk := disk, writes := v.writes + 1), p, e);
    }
  }

  /** Rendering one path leaves another that is on disk as it is. */
  lemma OwnedStays(env: Env, v: View, v': View, p: string, q: string, e: Meta)
    requires Contained(v.disk, v'.disk, p) && q != p && !IsScratch(q)
    requires q in v.disk && !v.disk[q].Other? && Owned(env, v, q, e) && (v'.canChown ==> v.canChown)
    ensures q in v'.disk && !v'.disk[q].Other? && Owned(env, v', q, e)
  {
    hide IsScratch, Ancestors, PlainMode, ScratchOf;
  }

  /**
   Nothing on disk is in the way of p: either it can be shown, with a mode within
   0777, or it is a file that is not on disk and the way to it is clear.
   */
  predicate Unhindered(cfg: Config, n: NodeState, disk: DiskMap, p: string)
    requires p in n.store.rows
  {
    var e := n.store.rows[p];
    || (CanPlace(cfg, disk, n.store.blobs, p, e) && PlainMode(e.mode))
    || (e.kind == KIND_FILE && p !in disk && !Blocked(disk, p))
  }

  ghost predicate ClearWay(cfg: Config, n: NodeState, disk: DiskMap)
  {
    forall p | IsLive(n.store.rows, p) :: Unhindered(cfg, n, disk, p)
  }

  /** How a path stands once it has been rendered: shown and owned, or still not there. */
  predicate Settles(cfg: Config, env: Env, n: NodeState, before: DiskMap, v: View, p: string)
    requires p in n.store.rows
  {
    if CanPlace(cfg, before, n.store.blobs, p, n.store.rows[p]) then
      p in v.disk && !v.disk[p].Other? && Owned(env, v, p, n.store.rows[p])
    else p !in v.disk
  }

  ghost predicate AllSettle(cfg: Config, env: Env, n: NodeState, before: DiskMap, v: View, paths: seq<string>, k: nat)
    requires k <= |paths|
  {
    forall i | 0 <= i < k && paths[i] in n.store.rows :: Settles(cfg, env, n, before, v, paths[i])
  }

  /** A path that cannot be placed and is not there is not there before its turn either. */
  lemma StillAbsent(cfg: Config, n: NodeState, before: DiskMap, now: DiskMap, done: set<string>, p: string)
    requires Kept(n.store.rows, before, now, done) && p !in done && IsLive(n.store.rows, p) && SaneTree(n.store.rows)
    requires n.store.rows[p].kind == KIND_FILE && p !in before
    ensures p !in now
  {
    hide SaneTree, IsTree, IsScratch, PlainMode, Ancestors;
    if p in now {
      assert MadeByRender(n.store.rows, done, now[p], p);
    }
    assert p in now ==> AboveLive(n.store.rows, p);
    if AboveLive(n.store.rows, p) {
      AboveLiveIsDir(n.store.rows, p);
    }
  }

  lemma StillCanPlace(cfg: Config, n: NodeState, before: DiskMap, now: DiskMap, done: set<string>, p: string)
    requires Kept(n.store.rows, before, now, done) && p !in done && IsLive(n.store.rows, p)
    requires SaneTree(n.store.rows) && Unhindered(cfg, n, before, p)
    ensures var e, blobs := n.store.rows[p], n.store.blobs;
            && (CanPlace(cfg, now, blobs, p, e) <==> CanPlace(cfg, before, blobs, p, e))
            && (!CanPlace(cfg, before, blobs, p, e) ==> p !in now && e.kind == KIND_FILE)
  {
    ShowsStays(cfg, n, before, now, done, p);
    KeptIsTree(n.store.rows, before, now, done);
    if CanPlace(cfg, before, n.store.blobs, p, n.store.rows[p]) {
      if p in now {
        TreeIsNotBlocked(now, p);
      }
    } else {
      StillAbsent(cfg, n, before, now, done, p);
    }
    hide Kept, SaneTree, Blocked, CanWrite, SanitizeMode, IsTree, PlainMode;
  }

  lemma {:induction false} WritesSettle(cfg: Config, env: Env, n: NodeState, v: View, paths: seq<string>, k: nat)
    requires k <= |paths| && IsTree(v.disk) && SaneTree(n.store.rows) && BlobsAddressed(cfg, n.store.blobs)
    requires forall i | 0 <= i < |paths| :: IsLive(n.store.rows, paths[i])
    requires forall i, j | 0 <= i < j < |paths| :: paths[i] != paths[j]
    requires ClearWay(cfg, n, v.disk)
    ensures AllSettle(cfg, env, n, v.disk, RenderUpTo(cfg, env, {}, n, v, paths, k), paths, k)
  {
    hide IsTree, SaneTree, BlobsAddressed, RenderOne, Unhindered, AllSettle, Kept, AllShown, CanPlace;
    if k == 0 {
      NoneSettle(cfg, env, n, v.disk, v, paths);
    } else {
      WritesSettle(cfg, env, n, v, paths, k - 1);
      var w := RenderUpTo(cfg, env, {}, n, v, paths, k - 1);
      WritesShow(cfg, env, {}, n, v, paths, k - 1);
      var done := DoneOf(paths, k - 1, {});
      KeptIsTree(n.store.rows, v.disk, w.disk, done);
      StillCanPlace(cfg, n, v.disk, w.disk, done, paths[k - 1]);
      OneMoreSettles(cfg, env, n, v.disk, w, paths, k);
    }
  }

  lemma NoneSettle(cfg: Config, env: Env, n: NodeState, before: DiskMap, v: View, paths: seq<string>)
    ensures AllSettle(cfg, env, n, before, v, paths, 0)
  {
  }

  lemma OneMoreSettles(cfg: Config, env: Env, n: NodeState, before: DiskMap, w: View, paths: seq<string>, k: nat)
    requires 0 < k <= |paths| && AllSettle(cfg, env, n, before, w, paths, k - 1)
    requires forall i | 0 <= i < |paths| :: IsLive(n.store.rows, paths[i])
    requires forall i, j | 0 <= i < j < |paths| :: paths[i] != paths[j]
    requires IsLive(n.store.rows, paths[k - 1])
    requires var p, e := paths[k - 1], n.store.rows[paths[k - 1]];
             && (CanPlace(cfg, w.disk, n.store.blobs, p, e) <==> CanPlace(cfg, before, n.store.blobs, p, e))
             && (!CanPlace(cfg, before, n.store.blobs, p, e) ==> p !in w.disk && e.kind == KIND_FILE)
    requires IsTree(w.disk) && SaneTree(n.store.rows) && BlobsAddressed(cfg, n.store.blobs) && ClearWay(cfg, n, before)
    ensures AllSettle(cfg, env, n, before, RenderOne(cfg, env, {}, n, w, paths[k - 1]), paths, k)
  {
    hide IsTree, SaneTree, BlobsAddressed, RenderOne, Owned, CanPlace, Contained, Settles, ClearWay;
    var p := paths[k - 1];
    StepSettles(cfg, env, n, before, w, p);
    var w' := RenderOne(cfg, env, {}, n, w, p);
    forall i | 0 <= i < k ensures Settles(cfg, env, n, before, w', paths[i]) {
      if i < k - 1 {
        OthersStaySettled(cfg, env, n, before, w, w', p, paths[i]);
      }
    }
  }

  lemma OthersStaySettled(cfg: Config, env: Env, n: NodeState, before: DiskMap, w: View, w': View, p: string, q: string)
    requires IsLive(n.store.rows, p) && IsLive(n.store.rows, q) && q != p
    requires Contained(w.disk, w'.disk, p) && (w'.canChown ==> w.canChown) && Settles(cfg, env, n, before, w, q)
    requires SaneTree(n.store.rows) && ClearWay(cfg, n, before)
    ensures Settles(cfg, env, n, before, w', q)
  {
    SaneAt(n.store.rows, q);
    SaneAt(n.store.rows, p);
    assert Unhindered(cfg, n, before, q);
    hide SaneTree, ClearWay, Contained, Carried, IsScratch, Blocked, PlainMode, SanitizeMode, CanPlace;
    if CanPlace(cfg, before, n.store.blobs, q, n.store.rows[q]) {
      OwnedStays(env, w, w', p, q, n.store.rows[q]);
    } else {
      AbsentStays(w.disk, w'.disk, p, q);
    }
  }

  lemma AbsentStays(disk: DiskMap, disk': DiskMap, p: string, q: string)
    requires Contained(disk, disk', p) && q != p && q !in disk
    ensures q in disk' ==> q in Ancestors(p)
  {
    hide IsScratch, Ancestors, PlainMode, ScratchOf;
  }

  lemma StepSettles(cfg: Config, env: Env, n: NodeState, before: DiskMap, w: View, p: string)
    requires IsTree(w.disk) && IsLive(n.store.rows, p)
    requires var e := n.store.rows[p];
             && (CanPlace(cfg, w.disk, n.store.blobs, p, e) <==> CanPlace(cfg, before, n.store.blobs, p, e))
             && (!CanPlace(cfg, before, n.store.blobs, p, e) ==> p !in w.disk && e.kind == KIND_FILE)
    requires SaneTree(n.store.rows) && BlobsAddressed(cfg, n.store.blobs)
    ensures var w' := RenderOne(cfg, env, {}, n, w, p);
            Contained(w.disk, w'.disk, p) && (w'.canChown ==> w.canChown) && Settles(cfg, env, n, before, w', p)
  {
    hide IsTree, SaneTree, BlobsAddressed, RenderOne, Owned, CanPlace, Contained, InPlace, Shows, Carried, SanitizeMode;
    SaneAt(n.store.rows, p);
    OneRendered(cfg, env, {}, n, w, p);
    if CanPlace(cfg, before, n.store.blobs, p, n.store.rows[p]) {
      OneOwned(cfg, env, n, w, p);
    } else {
      NotPlaced(cfg, env, n, w, p);
    }
  }

  /** A file that cannot be placed and is not there stays away, and nobody's owner is touched. */
  lemma NotPlaced(cfg: Config, env: Env, n: NodeState, w: View, p: string)
    requires p in n.store.rows && n.store.rows[p].kind == KIND_FILE && p !in w.disk
    requires !CanPlace(cfg, w.disk, n.store.blobs, p, n.store.rows[p])
    ensures p !in RenderOne(cfg, env, {}, n, w, p).disk && RenderOne(cfg, env, {}, n, w, p).canChown == w.canChown
  {
    hide PlainMode, NameFits, Blocked, ApplyMeta, ScratchOf, Ancestors, CanPlace, CanWrite, Base;
    CanPlaceExactly(cfg, w.disk, n.store.blobs, p, n.store.rows[p]);
    AncestorsExact(p, p);
    assert !IsBelow(p, p);
    ScratchNotMade(env, w.disk, p);
  }

  lemma ScratchNotMade(env: Env, disk: DiskMap, p: string)
    ensures var ready := WithDirs(env, disk, Ancestors(p), DIR_MODE);
            ScratchOf(p) in disk && disk[ScratchOf(p)].File? ==> ScratchOf(p) in ready && ready[ScratchOf(p)].File?
    ensures ScratchOf(p) !in disk ==> ScratchOf(p) !in WithDirs(env, disk, Ancestors(p), DIR_MODE)
  {
    BaseIsSuffix(p);
    assert |ScratchOf(p)| > |p|;
    forall a | a in Ancestors(p) ensures |a| < |p| {
    }
    hide Ancestors, ScratchOf;
  }

  /** Directories above live paths have live rows, and nothing on disk awaits adoption. */
  ghost predicate Adopted(rows: Rows, disk: DiskMap)
  {
    && (forall p | IsLive(rows, p) :: forall a | a in Ancestors(p) :: IsLive(rows, a))
    && (forall p | Walked(disk, p) :: p in rows)
  }

  lemma AllOfThemSettle(cfg: Config, env: Env, n: NodeState, v: View, p: string)
    requires IsTree(v.disk) && SaneTree(n.store.rows) && BlobsAddressed(cfg, n.store.blobs)
    requires ClearWay(cfg, n, v.disk) && IsLive(n.store.rows, p)
    ensures Settles(cfg, env, n, v.disk, WriteAll(cfg, env, {}, n, v), p)
  {
    hide IsTree, SaneTree, BlobsAddressed, RenderUpTo, ClearWay, Settles;
    var live := LivePaths(n.store.rows);
    var paths := Ascending(live);
    AscendingIsSorted(live);
    forall i, j | 0 <= i < j < |paths| ensures paths[i] != paths[j] {
      LessAsymmetric(paths[i], paths[j]);
    }
    forall i | 0 <= i < |paths| ensures IsLive(n.store.rows, paths[i]) {
      assert paths[i] in live;
    }
    WritesSettle(cfg, env, n, v, paths, |paths|);
    assert p in live;
    assert p in paths;
    hide Less, Ascending;
    var i :| 0 <= i < |paths| && paths[i] == p;
  }

  /** Where the entry can be placed, the disk shows it after the writing half of a render. */
  lemma PlacedIsShown(cfg: Config, env: Env, n: NodeState, v: View, p: string)
    requires IsTree(v.disk) && SaneTree(n.store.rows) && BlobsAddressed(cfg, n.store.blobs)
    requires ClearWay(cfg, n, v.disk) && IsLive(n.store.rows, p)
    requires CanPlace(cfg, v.disk, n.store.blobs, p, n.store.rows[p])
    ensures ShownAt(cfg, env, WriteAll(cfg, env, {}, n, v), p, n.store.rows[p])
  {
    hide IsTree, SaneTree, BlobsAddressed, InPlace, PlainMode, Kept, NameFits, ScratchOf, Blocked, Owned, WriteAll;
    CanPlaceExactly(cfg, v.disk, n.store.blobs, p, n.store.rows[p]);
    WritingShows(cfg, env, {}, n, v);
    AllOfThemSettle(cfg, env, n, v, p);
    assert p in LivePaths(n.store.rows) - {};
    assert Unhindered(cfg, n, v.disk, p);
  }

  /** Writing leaves the scratch files that are in the way where they are. */
  lemma CanWriteNow(rows: Rows, before: DiskMap, now: DiskMap, done: set<string>, blobs: map<string, Bytes>,
                    p: string, e: Meta)
    requires Kept(rows, before, now, done) && CanWrite(now, blobs, p, e)
    ensures CanWrite(before, blobs, p, e)
  {
    ScratchIsScratch(p);
    hide IsTree, IsScratch, PlainMode, NameFits, ScratchOf, MadeByRender, WrittenThrough;
  }

  lemma UnplacedIsStuck(cfg: Config, env: Env, n: NodeState, v: View, p: string)
    requires IsTree(v.disk) && SaneTree(n.store.rows) && BlobsAddressed(cfg, n.store.blobs)
    requires ClearWay(cfg, n, v.disk) && Adopted(n.store.rows, v.disk) && IsLive(n.store.rows, p)
    requires !CanPlace(cfg, v.disk, n.store.blobs, p, n.store.rows[p])
    ensures Stuck(WriteAll(cfg, env, {}, n, v).disk, n.store.blobs, p, n.store.rows[p])
  {
    hide IsTree, SaneTree, BlobsAddressed, Kept, WriteAll, AllShown, CanWrite, Blocked, PlainMode, SameContent, Walked,
      Ancestors, IsScratch, SanitizeMode;
    var rows, now, e := n.store.rows, WriteAll(cfg, env, {}, n, v).disk, n.store.rows[p];
    assert Unhindered(cfg, n, v.disk, p);
    WritingShows(cfg, env, {}, n, v);
    AllOfThemSettle(cfg, env, n, v, p);
    SaneAt(rows, p);
    if CanWrite(now, n.store.blobs, p, e) {
      CanWriteNow(rows, v.disk, now, LivePaths(rows) - {}, n.store.blobs, p, e);
    }
    forall a | a in Ancestors(p) ensures a in now && now[a].Directory? {
      assert IsLive(rows, a) && rows[a].kind == KIND_DIR;
      assert Unhindered(cfg, n, v.disk, a);
      PlacedIsShown(cfg, env, n, v, a);
    }
  }

  lemma WrittenIsAdopted(rows: Rows, before: DiskMap, now: DiskMap)
    requires Kept(rows, before, now, LivePaths(rows)) && Adopted(rows, before)
    ensures forall p | Walked(now, p) :: p in rows
  {
    hide IsTree, IsScratch, PlainMode, SanitizePath, Ancestors;
    forall p | Walked(now, p) ensures p in rows {
      if p in before {
        assert Walked(before, p);
      } else {
        assert MadeByRender(rows, LivePaths(rows), now[p], p);
      }
    }
  }

  lemma RemovalSettles(rows: Rows, now: DiskMap)
    ensures var after := RemoveGone(rows, {}, now);
            forall p | p in after :: !Clears(after, Doomed(rows, {}, after), p)
  {
    RemovalByDoom(rows, {}, now);
    var after, doomed := RemoveGone(rows, {}, now), Doomed(rows, {}, now);
    hide RemoveGone, IsScratch, SanitizePath, IsBelow;
    forall p | p in after ensures !Clears(after, Doomed(rows, {}, after), p) {
      if p in doomed {
        var q :| q in now && IsBelow(q, p) && q !in doomed;
        assert q in after;
      }
    }
  }

  /** Removal takes away neither live paths nor scratch files. */
  lemma RemovalSpares(rows: Rows, disk: DiskMap, p: string)
    requires p in disk && (IsLive(rows, p) || IsScratch(p))
    ensures p in RemoveGone(rows, {}, disk) && RemoveGone(rows, {}, disk)[p] == disk[p]
  {
    RemovalByDoom(rows, {}, disk);
    hide RemoveGone, IsScratch, SanitizePath, IsBelow;
  }

  lemma StuckThroughRemoval(rows: Rows, disk: DiskMap, blobs: map<string, Bytes>, p: string, e: Meta)
    requires Stuck(disk, blobs, p, e) && forall a | a in Ancestors(p) :: IsLive(rows, a)
    ensures Stuck(RemoveGone(rows, {}, disk), blobs, p, e)
  {
    ScratchIsScratch(p);
    RemovalByDoom(rows, {}, disk);
    hide RemoveGone, IsScratch, PlainMode, NameFits, ScratchOf, Ancestors, Clears;
    forall a | a in Ancestors(p) ensures a in RemoveGone(rows, {}, disk) && RemoveGone(rows, {}, disk)[a].Directory? {
      RemovalSpares(rows, disk, a);
    }
    if ScratchOf(p) in disk {
      RemovalSpares(rows, disk, ScratchOf(p));
    }
  }

  lemma OneSettles(cfg: Config, env: Env, n: NodeState, v: View, p: string)
    requires IsTree(v.disk) && SaneTree(n.store.rows) && BlobsAddressed(cfg, n.store.blobs)
    requires ClearWay(cfg, n, v.disk) && Adopted(n.store.rows, v.disk) && IsLive(n.store.rows, p)
    ensures AtRest(cfg, env, n, Render(cfg, env, {}, n, v), p)
  {
    hide IsTree, SaneTree, BlobsAddressed, ClearWay, WriteAll, RemoveGone, Walked, PlainMode, SanitizeMode, CanPlace,
      Stuck, Ancestors;
    var w, e := WriteAll(cfg, env, {}, n, v), n.store.rows[p];
    if CanPlace(cfg, v.disk, n.store.blobs, p, e) {
      PlacedIsShown(cfg, env, n, v, p);
      RemovalSpares(n.store.rows, w.disk, p);
    } else {
      UnplacedIsStuck(cfg, env, n, v, p);
      StuckThroughRemoval(n.store.rows, w.disk, n.store.blobs, p, e);
    }
  }

  /** With nothing in the way, one render settles disk and tree. */
  lemma FirstRenderSettles(cfg: Config, env: Env, n: NodeState, v: View)
    requires IsTree(v.disk) && SaneTree(n.store.rows) && BlobsAddressed(cfg, n.store.blobs)
    requires ClearWay(cfg, n, v.disk) && Adopted(n.store.rows, v.disk)
    ensures Settled(cfg, env, n, Render(cfg, env, {}, n, v))
  {
    hide IsTree, SaneTree, BlobsAddressed, ClearWay, Kept, AllShown, LiveShown, StrangersKept, TombstonesGone, WriteAll,
      RemoveGone, Clears, IsScratch, SanitizePath, Adopted, AtRest, Doomed;
    var rows, w, after := n.store.rows, WriteAll(cfg, env, {}, n, v), Render(cfg, env, {}, n, v);
    RenderPostState(cfg, env, {}, n, v);
    WritingShows(cfg, env, {}, n, v);
    assert LivePaths(rows) - {} == LivePaths(rows);
    WrittenIsAdopted(rows, v.disk, w.disk);
    RemovalSettles(rows, w.disk);
    RemovalByDoom(rows, {}, w.disk);
    forall p | IsLive(rows, p) ensures AtRest(cfg, env, n, after, p) {
      OneSettles(cfg, env, n, v, p);
    }
  }

  /**
   Echo loop fixed point. Let one render run with nothing in flight. Let nothing on
   disk be in the way of a live path (a file that cannot be written at all, for want
   of its content say, must only not be there), and let modes on disk be within 0777,
   every directory above a live path have a live row, and nothing on disk await
   adoption. Then no number of rescans, of the watcher's events in any order and
   number, and of renders, changes anything: no new version, no file written, with or
   without the right to set owners.
   */
  lemma {:induction false} EchoLoopIsFixed(cfg: Config, env: Env, n: NodeState, v: View, run: seq<LoopStep>)
    requires IsTree(v.disk) && SaneTree(n.store.rows) && BlobsAddressed(cfg, n.store.blobs)
    requires ClearWay(cfg, n, v.disk) && Adopted(n.store.rows, v.disk)
    requires forall i | 0 <= i < |run| :: Shaped(run[i])
    requires forall i | 0 <= i < |run| :: FromDisk(n, Render(cfg, env, {}, n, v), run[i])
    ensures var s := MirrorState(n, Render(cfg, env, {}, n, v)); Turns(cfg, env, s, run) == s
  {
    hide IsTree, SaneTree, BlobsAddressed, ClearWay, Adopted, Render, Settled, IsScratch, Speaks;
    FirstRenderSettles(cfg, env, n, v);
    SettledForever(cfg, env, MirrorState(n, Render(cfg, env, {}, n, v)), run);
  }
}
