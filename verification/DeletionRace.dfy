/**
 A file removed by hand while the mirror renders. Watcher, tree and user act in
 between any two steps of the mirror's run loop; the removal must come out as a
 tombstone, not be undone by a render.

 A removal and its event are one step, and so are render's check of one path and
 its write.
 */
module DeletionRace {
  import opened Order
  import opened Path
  import opened Entry
  import opened Store
  import opened Node
  import opened AntiEntropy
  import opened Disk
  import opened Mirror
  import opened Watch
  import opened Paging

  /** Where the run loop is. A render works from the rows it listed when it began. */
  datatype Loop =
    | Idle
    | Writing(rows: Rows, paths: seq<string>, k: nat)
    | Removing(doomed: seq<string>, k: nat)
    | Applying(batch: seq<Event>, k: nat)

  /** pending is the watcher's unsettled events, flushed the batches not yet taken up. */
  datatype State = State(node: NodeState, view: View, inflight: set<string>, pending: map<string, bool>,
                         flushed: seq<seq<Event>>, loop: Loop)

  datatype Step =
    | UserRemoves(q: string)
    | UserWrites(q: string, entry: DiskNode, found: set<string>)
    | Noticed(q: string, removed: bool)
    | TreeMoves(op: NodeOp)
    | Flush(batch: seq<Event>)
    | BeginRender
    | WriteNext
    | BeginRemoving
    | RemoveNext
    | BeginEvents
    | EventNext(sight: Sight)
    | EndTurn
    | ScanNext(q: string, sight: Sight)

  ghost predicate Enabled(s: State, a: Step)
  {
    match a
    case UserRemoves(q) => q in s.view.disk && forall r | r in s.view.disk :: !IsBelow(r, q)
    case UserWrites(q, _, found) =>
      found <= s.view.disk.Keys && forall d | d in Ancestors(q) :: d in s.view.disk && s.view.disk[d].Directory?
    case Noticed(_, _) => true
    case TreeMoves(op) => WellShaped(op)
    case Flush(batch) => s.pending != map[] && Lists(batch, s.pending)
    case BeginRender => s.loop.Idle?
    case WriteNext => s.loop.Writing? && s.loop.k < |s.loop.paths|
    case BeginRemoving => s.loop.Writing? && s.loop.k == |s.loop.paths|
    case RemoveNext => s.loop.Removing? && s.loop.k < |s.loop.doomed|
    case BeginEvents => s.loop.Idle? && s.flushed != []
    case EventNext(_) => s.loop.Applying? && s.loop.k < |s.loop.batch|
    case EndTurn =>
      (s.loop.Removing? && s.loop.k == |s.loop.doomed|) || (s.loop.Applying? && s.loop.k == |s.loop.batch|)
    case ScanNext(q, _) => s.loop.Idle? && q in s.view.disk
  }

  function Claimed(s: State, paths: set<string>, removed: bool): State
  {
    s.(pending := s.pending + map q | q in paths :: removed, inflight := s.inflight + paths)
  }

  ghost function Do(cfg: Config, env: Env, s: State, a: Step): State
    requires Enabled(s, a)
  {
    match a
    case UserRemoves(q) => Claimed(s.(view := s.view.(disk := s.view.disk - {q})), {q}, true)
    case UserWrites(q, entry, found) =>
      Claimed(s.(view := s.view.(disk := s.view.disk[q := entry])), found + {q}, false)
    case Noticed(q, removed) => Claimed(s, {q}, removed)
    case TreeMoves(op) => s.(node := RunOp(cfg, s.node, op))
    case Flush(batch) => s.(pending := map[], flushed := s.flushed + [batch])
    case BeginRender =>
      s.(loop := Writing(s.node.store.rows, Ascending(LivePaths(s.node.store.rows)), 0))
    case WriteNext =>
      s.(view := RenderOne(cfg, env, s.inflight, Listed(s), s.view, s.loop.paths[s.loop.k]),
         loop := Writing(s.loop.rows, s.loop.paths, s.loop.k + 1))
    case BeginRemoving =>
      s.(loop := Removing(Descending(Doomed(s.node.store.rows, s.inflight, s.view.disk)), 0))
    case RemoveNext =>
      s.(view := s.view.(disk := Remove(s.view.disk, s.loop.doomed[s.loop.k])),
         loop := Removing(s.loop.doomed, s.loop.k + 1))
    case BeginEvents => s.(loop := Applying(s.flushed[0], 0), flushed := s.flushed[1..])
    case EventNext(sight) =>
      s.(node := ApplyEvent(cfg, s.node, s.view, s.loop.batch[s.loop.k], sight),
         loop := Applying(s.loop.batch, s.loop.k + 1))
    case EndTurn =>
      if s.loop.Applying? then s.(loop := Idle, inflight := s.inflight - PathsOf(s.loop.batch)) else s.(loop := Idle)
    case ScanNext(q, sight) =>
      s.(node := Promote(cfg, s.node, s.view, q, s.view.disk[q].Directory?, sight))
  }

  ghost predicate Legal(cfg: Config, env: Env, s: State, run: seq<Step>)
    decreases |run|
  {
    run == [] || (Enabled(s, run[0]) && Legal(cfg, env, Do(cfg, env, s, run[0]), run[1..]))
  }

  ghost function Run(cfg: Config, env: Env, s: State, run: seq<Step>): State
    requires Legal(cfg, env, s, run)
    decreases |run|
  {
    if run == [] then s else Run(cfg, env, Do(cfg, env, s, run[0]), run[1..])
  }

  /* ----- a removal on its way to the tree ----- */

  /** The batch, from its k-th event on, holds an event for p. */
  predicate Mentions(batch: seq<Event>, k: nat, p: string)
  {
    exists i | 0 <= i < |batch| :: k <= i && batch[i].path == p
  }

  /** An event for p is still to be handled: pending, in a flushed batch, or ahead in the current one. */
  predicate Waiting(s: State, p: string)
  {
    || p in s.pending
    || (exists i | 0 <= i < |s.flushed| :: Mentions(s.flushed[i], 0, p))
    || (s.loop.Applying? && Mentions(s.loop.batch, s.loop.k, p))
  }

  /** The batch being applied has already dealt with p, and will give up the claim on it when it ends. */
  predicate HalfHandled(s: State, p: string)
  {
    s.loop.Applying? && exists i | 0 <= i < |s.loop.batch| :: i < s.loop.k && s.loop.batch[i].path == p
  }

  /** p is gone from disk and claimed, and the tree has still to hear of it. */
  predicate OnItsWay(s: State, p: string)
  {
    SanitizePath(p).Ok? && p !in s.view.disk && p in s.inflight && Waiting(s, p) && !HalfHandled(s, p)
  }

  /** The step at which an event for p reaches the tree. */
  predicate Handles(s: State, a: Step, p: string)
  {
    a.EventNext? && s.loop.Applying? && s.loop.k < |s.loop.batch| && s.loop.batch[s.loop.k].path == p
  }

  /** Rendering q makes directories: it is not refused before that. */
  predicate MakesDirs(n: NodeState, disk: DiskMap, q: string)
  {
    && q in n.store.rows && !Blocked(disk, q)
    && var e := n.store.rows[q];
       if e.kind == KIND_DIR then PlainMode(e.mode) else e.kind == KIND_FILE && e.hash in n.store.blobs
  }

  /** Rendering q, unclaimed and below p, makes p again on the way. */
  predicate BringsBack(inflight: set<string>, n: NodeState, disk: DiskMap, p: string, q: string)
  {
    IsBelow(q, p) && q !in inflight && MakesDirs(n, disk, q)
  }

  function Listed(s: State): NodeState
    requires s.loop.Writing?
  {
    s.node.(store := s.node.store.(rows := s.loop.rows))
  }

  /** The user does not put p back, and no render brings it back. */
  predicate LeavesAlone(s: State, a: Step, p: string)
  {
    match a
    case UserWrites(q, _, _) => q != p
    case WriteNext =>
      s.loop.Writing? && s.loop.k < |s.loop.paths| &&
      !BringsBack(s.inflight, Listed(s), s.view.disk, p, s.loop.paths[s.loop.k])
    case _ => true
  }

  /**
   A path that is claimed and gone comes back in a render in one case only: an
   unclaimed path below it is rendered, and takes its parent directories along.
   */
  lemma OnlyChildrenBringBack(cfg: Config, env: Env, inflight: set<string>, n: NodeState, v: View, p: string, q: string)
    requires IsTree(v.disk) && p !in v.disk && p in inflight
    ensures p in RenderOne(cfg, env, inflight, n, v, q).disk <==> BringsBack(inflight, n, v.disk, p, q)
  {
    assert IsBelow(q, p) ==> q !in v.disk;
    hide IsTree;
    if BringsBack(inflight, n, v.disk, p, q) {
      ChildBringsBack(cfg, env, inflight, n, v, p, q);
    } else {
      WriteKeepsGone(cfg, env, inflight, n, v, p, q);
    }
  }

  lemma ChildBringsBack(cfg: Config, env: Env, inflight: set<string>, n: NodeState, v: View, p: string, q: string)
    requires BringsBack(inflight, n, v.disk, p, q) && q !in v.disk
    ensures p in RenderOne(cfg, env, inflight, n, v, q).disk
  {
    AncestorsExact(q, p);
    BaseIsSuffix(q);
    assert |p| < |q| < |ScratchOf(q)|;
    hide Blocked, Ancestors, PlainMode, IsBelow, Chmod, SanitizeMode, Chown, NameFits, ScratchOf;
  }

  lemma WriteKeepsGone(cfg: Config, env: Env, inflight: set<string>, n: NodeState, v: View, p: string, q: string)
    requires p !in v.disk && p in inflight && !BringsBack(inflight, n, v.disk, p, q)
    ensures p !in RenderOne(cfg, env, inflight, n, v, q).disk
  {
    AncestorsExact(q, p);
    hide Blocked, Ancestors, PlainMode, IsBelow, Chmod, SanitizeMode, Chown, NameFits, ScratchOf;
  }

  /** A removal by hand is on its way if the batch being applied is not already past the path. */
  lemma RemovalIsOnItsWay(cfg: Config, env: Env, s: State, p: string)
    requires Enabled(s, UserRemoves(p)) && SanitizePath(p).Ok? && !HalfHandled(s, p)
    ensures OnItsWay(Do(cfg, env, s, UserRemoves(p)), p)
  {
    hide SanitizePath, IsBelow, Mentions;
  }

  lemma FlushKeeps(cfg: Config, env: Env, s: State, batch: seq<Event>, p: string)
    requires OnItsWay(s, p) && Enabled(s, Flush(batch))
    ensures OnItsWay(Do(cfg, env, s, Flush(batch)), p)
  {
    hide SanitizePath;
    var s', n := Do(cfg, env, s, Flush(batch)), |s.flushed|;
    assert s'.flushed[n] == batch && forall i | 0 <= i < n :: s'.flushed[i] == s.flushed[i];
    if p in s.pending {
      assert Event(p, s.pending[p]) in batch;
      assert Mentions(batch, 0, p);
    }
    hide Mentions, Lists, HalfHandled;
    if i :| 0 <= i < n && Mentions(s.flushed[i], 0, p) {
      assert Mentions(s'.flushed[i], 0, p);
    }
  }

  lemma BeginKeeps(cfg: Config, env: Env, s: State, p: string)
    requires OnItsWay(s, p) && Enabled(s, BeginEvents)
    ensures OnItsWay(Do(cfg, env, s, BeginEvents), p)
  {
    hide SanitizePath, Mentions;
    var s' := Do(cfg, env, s, BeginEvents);
    if i :| 0 <= i < |s.flushed| && Mentions(s.flushed[i], 0, p) {
      assert i > 0 ==> s'.flushed[i - 1] == s.flushed[i];
    }
  }

  lemma EventKeeps(cfg: Config, env: Env, s: State, sight: Sight, p: string)
    requires OnItsWay(s, p) && Enabled(s, EventNext(sight)) && !Handles(s, EventNext(sight), p)
    ensures OnItsWay(Do(cfg, env, s, EventNext(sight)), p)
  {
    hide SanitizePath, ApplyEvent;
  }

  lemma EndKeeps(cfg: Config, env: Env, s: State, p: string)
    requires OnItsWay(s, p) && Enabled(s, EndTurn)
    ensures OnItsWay(Do(cfg, env, s, EndTurn), p)
  {
    hide SanitizePath;
  }

  lemma StepKeeps(cfg: Config, env: Env, s: State, a: Step, p: string)
    requires OnItsWay(s, p) && Enabled(s, a) && LeavesAlone(s, a, p) && !Handles(s, a, p)
    ensures OnItsWay(Do(cfg, env, s, a), p)
  {
    hide SanitizePath, Mentions, RenderOne, ApplyEvent, Promote, RunOp, BringsBack, Ancestors, Lists, Doomed;
    match a
    case Flush(batch) => FlushKeeps(cfg, env, s, batch, p);
    case BeginEvents => BeginKeeps(cfg, env, s, p);
    case EventNext(sight) => EventKeeps(cfg, env, s, sight, p);
    case EndTurn => EndKeeps(cfg, env, s, p);
    case WriteNext => WriteKeepsGone(cfg, env, s.inflight, Listed(s), s.view, p, s.loop.paths[s.loop.k]);
    case _ =>
  }

  /** Through the whole run p is left alone and no event for it is handled. */
  ghost predicate Undisturbed(cfg: Config, env: Env, s: State, run: seq<Step>, p: string)
    requires Legal(cfg, env, s, run)
    decreases |run|
  {
    run == [] ||
    (LeavesAlone(s, run[0], p) && !Handles(s, run[0], p) &&
     Undisturbed(cfg, env, Do(cfg, env, s, run[0]), run[1..], p))
  }

  lemma {:induction false} RunKeeps(cfg: Config, env: Env, s: State, run: seq<Step>, p: string)
    requires OnItsWay(s, p) && Legal(cfg, env, s, run) && Undisturbed(cfg, env, s, run, p)
    ensures OnItsWay(Run(cfg, env, s, run), p)
    decreases |run|
  {
    hide OnItsWay, Enabled, Do, LeavesAlone, Handles;
    if run != [] {
      StepKeeps(cfg, env, s, run[0], p);
      RunKeeps(cfg, env, Do(cfg, env, s, run[0]), run[1..], p);
    }
  }

  /* ----- a claim given up ----- */

  /** p is gone and its removal pending, but the batch being applied is past p and has no other event for it. */
  predicate PassedOver(s: State, p: string)
  {
    && s.loop.Applying? && s.loop.k <= |s.loop.batch| && p in PathsOf(s.loop.batch)
    && !Mentions(s.loop.batch, s.loop.k, p) && p in s.pending && p !in s.view.disk
  }

  /** p is gone and its removal pending, and nothing claims p. */
  predicate Unclaimed(s: State, p: string)
  {
    p !in s.inflight && p in s.pending && p !in s.view.disk
  }

  /** The rest of the batch is handled, the batch ends, and with it the claim. */
  lemma {:induction false} BatchEnds(cfg: Config, env: Env, s: State, p: string, sight: Sight) returns (run: seq<Step>)
    requires PassedOver(s, p)
    ensures Legal(cfg, env, s, run) && Undisturbed(cfg, env, s, run, p) && Unclaimed(Run(cfg, env, s, run), p)
    decreases |s.loop.batch| - s.loop.k
  {
    hide ApplyEvent;
    if s.loop.k == |s.loop.batch| {
      run := [EndTurn];
      var end := Do(cfg, env, s, EndTurn);
      assert Legal(cfg, env, end, []) && Undisturbed(cfg, env, end, [], p) && Run(cfg, env, end, []) == end;
      assert run[1..] == [];
    } else {
      var next := EventNext(sight);
      var s' := Do(cfg, env, s, next);
      assert s.loop.batch[s.loop.k].path != p;
      assert PassedOver(s', p);
      var rest := BatchEnds(cfg, env, s', p, sight);
      hide PassedOver, Mentions, Unclaimed;
      run := [next] + rest;
      assert run[0] == next && run[1..] == rest;
    }
  }

  /** Through the whole of every undisturbed run p stays claimed. */
  ghost predicate ClaimHolds(cfg: Config, env: Env, s: State, p: string)
  {
    forall run | Legal(cfg, env, s, run) && Undisturbed(cfg, env, s, run, p) :: p in Run(cfg, env, s, run).inflight
  }

  /**
   When the claim on a removed path holds. From a removal of p by hand, on every run
   on which p is left alone and no event for it is handled, p stays claimed exactly
   when the batch being applied at the removal is not already past p. If it is, there
   is such a run to a state in which p is gone, its removal still pending, and nothing
   keeps a render from writing it again.
   */
  lemma RemovalKeepsItsClaim(cfg: Config, env: Env, s: State, p: string)
    requires Enabled(s, UserRemoves(p)) && SanitizePath(p).Ok?
    requires s.loop.Applying? ==> s.loop.k <= |s.loop.batch| && ListsOnce(s.loop.batch)
    ensures var s1 := Do(cfg, env, s, UserRemoves(p));
            && (ClaimHolds(cfg, env, s1, p) <==> !HalfHandled(s, p))
            && (HalfHandled(s, p) ==>
                  exists run :: Legal(cfg, env, s1, run) && Undisturbed(cfg, env, s1, run, p)
                                && Unclaimed(Run(cfg, env, s1, run), p))
  {
    var s1 := Do(cfg, env, s, UserRemoves(p));
    hide Legal, Undisturbed, Run, SanitizePath, IsBelow;
    if HalfHandled(s, p) {
      assert PassedOver(s1, p);
      var run := BatchEnds(cfg, env, s1, p, Sight(0, 0, 0));
      assert p !in Run(cfg, env, s1, run).inflight;
    } else {
      RemovalIsOnItsWay(cfg, env, s, p);
      forall run | Legal(cfg, env, s1, run) && Undisturbed(cfg, env, s1, run, p)
        ensures p in Run(cfg, env, s1, run).inflight
      {
        RunKeeps(cfg, env, s1, run, p);
      }
    }
  }

  /* ----- handling the removal ----- */

  /** The event may be acted on: it says removed, or a fresh look can tell that the path is gone. */
  predicate Tells(s: State, p: string)
    requires s.loop.Applying? && s.loop.k < |s.loop.batch|
  {
    s.loop.batch[s.loop.k].removed || !Blocked(s.view.disk, p)
  }

  /** p is not live any more; a row it had is a tombstone now, one it did not have it has not got. */
  predicate Tombstoned(rows: Rows, rows': Rows, p: string)
  {
    && (p in rows' <==> p in rows)
    && (p in rows ==> IsTombstone(rows', p) && (IsLive(rows, p) ==> rows'[p].prevHash == rows[p].hash))
  }

  /**
   Handling an event for a path that is gone deletes it, exactly when the event tells
   so; no other path is touched.
   */
  lemma HandlingDeletes(cfg: Config, env: Env, s: State, sight: Sight, p: string)
    requires Handles(s, EventNext(sight), p) && p !in s.view.disk && SanitizePath(p).Ok?
    requires WellFiled(s.node.store.rows)
    ensures var rows, s' := s.node.store.rows, Do(cfg, env, s, EventNext(sight));
            && (if Tells(s, p) then Tombstoned(rows, s'.node.store.rows, p) else s'.node == s.node)
            && (forall q | q != p :: Get(s'.node.store, q) == Get(s.node.store, q))
  {
    WriteLands(cfg, s.node, Delete(p, sight.deletedAt), sight.at);
    hide Handles, SanitizePath, Blocked;
  }

  lemma PromoteKeepsFeed(cfg: Config, n: NodeState, v: View, p: string, isDir: bool, sight: Sight)
    requires WellFormed(n.store)
    ensures WellFormed(Promote(cfg, n, v, p, isDir, sight).store)
  {
    hide WellFormed, OldFeedKept, DoPutFile, DoPutDir;
    if p in v.disk && !v.disk[p].Other? {
      var node := v.disk[p];
      var (uid, gid) := OwnershipFor(v.canChown, n.store.rows, p, node);
      LocalKeepsFeed(cfg, n, PutDir(p, Perm(node), uid, gid), sight.at);
      if node.File? {
        LocalKeepsFeed(cfg, n, PutFile(p, node.content, Perm(node), uid, gid), sight.at);
      }
    }
  }

  lemma StepKeepsFeed(cfg: Config, env: Env, s: State, a: Step)
    requires Enabled(s, a) && WellFormed(s.node.store)
    ensures WellFormed(Do(cfg, env, s, a).node.store)
  {
    hide WellFormed, OldFeedKept, Promote, RunOp, RenderOne, Doomed, Ancestors, Lists, DoDelete;
    match a
    case TreeMoves(op) => OpKeepsFeed(cfg, s.node, op);
    case ScanNext(q, sight) => PromoteKeepsFeed(cfg, s.node, s.view, q, s.view.disk[q].Directory?, sight);
    case EventNext(sight) =>
      var ev := s.loop.batch[s.loop.k];
      PromoteKeepsFeed(cfg, s.node, s.view, ev.path, false, sight);
      PromoteKeepsFeed(cfg, s.node, s.view, ev.path, true, sight);
      LocalKeepsFeed(cfg, s.node, Delete(ev.path, sight.deletedAt), sight.at);
    case _ =>
  }

  lemma {:induction false} RunKeepsFeed(cfg: Config, env: Env, s: State, run: seq<Step>)
    requires Legal(cfg, env, s, run) && WellFormed(s.node.store)
    ensures WellFormed(Run(cfg, env, s, run).node.store)
    decreases |run|
  {
    hide Enabled, Do, WellFormed;
    if run != [] {
      StepKeepsFeed(cfg, env, s, run[0]);
      RunKeepsFeed(cfg, env, Do(cfg, env, s, run[0]), run[1..]);
    }
  }

  /**
   Deletion survives rendering. From the removal of p by hand, in every
   interleaving of user, watcher, tree and run loop, whatever events arrive for p
   and whenever, p stays off the disk until the run loop comes to an event for it,
   and then p is deleted from the tree. Asked for is only that the batch being
   applied at the removal is not already past p, that the user does not put p back,
   and that no render brings it back (OnlyChildrenBringBack says when one does).
   */
  lemma DeletionSurvivesRendering(cfg: Config, env: Env, s: State, run: seq<Step>, sight: Sight, p: string)
    requires Enabled(s, UserRemoves(p)) && SanitizePath(p).Ok? && !HalfHandled(s, p) && WellFormed(s.node.store)
    requires Legal(cfg, env, Do(cfg, env, s, UserRemoves(p)), run)
    requires Undisturbed(cfg, env, Do(cfg, env, s, UserRemoves(p)), run, p)
    ensures var end := Run(cfg, env, Do(cfg, env, s, UserRemoves(p)), run);
            && p !in end.view.disk && p in end.inflight && Waiting(end, p)
            && (Handles(end, EventNext(sight), p) && Tells(end, p) ==>
                  Tombstoned(end.node.store.rows, Do(cfg, env, end, EventNext(sight)).node.store.rows, p))
  {
    hide Enabled, Undisturbed, Legal, Run, Do, HalfHandled, SanitizePath, Handles, WellFiled, Waiting, Tells,
      Tombstoned, UniqueSeqs;
    RemovalIsOnItsWay(cfg, env, s, p);
    var s1 := Do(cfg, env, s, UserRemoves(p));
    RunKeeps(cfg, env, s1, run, p);
    StepKeepsFeed(cfg, env, s, UserRemoves(p));
    RunKeepsFeed(cfg, env, s1, run);
    var end := Run(cfg, env, s1, run);
    if Handles(end, EventNext(sight), p) {
      HandlingDeletes(cfg, env, end, sight, p);
    }
  }
}
