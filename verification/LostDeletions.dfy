/**
 Two runs on which the tree never hears of a removal by hand: a render brings the
 directory back, and a claim is given up too early. They show that the conditions
 of DeletionRace cannot be dropped.
 */
module LostDeletions {
  import opened Order
  import opened Hlc
  import opened Path
  import opened Entry
  import opened Store
  import opened Node
  import opened Disk
  import opened Mirror
  import opened RenderFacts
  import opened Watch
  import opened DeletionRace

  lemma {:induction false} RunSnoc(cfg: Config, env: Env, s: State, run: seq<Step>, a: Step)
    requires Legal(cfg, env, s, run) && Enabled(Run(cfg, env, s, run), a)
    ensures Legal(cfg, env, s, run + [a])
    ensures Run(cfg, env, s, run + [a]) == Do(cfg, env, Run(cfg, env, s, run), a)
    decreases |run|
  {
    hide Enabled, Do;
    if run == [] {
      assert run + [a] == [a] && [a][1..] == [];
      assert Legal(cfg, env, Do(cfg, env, s, a), []);
    } else {
      assert (run + [a])[1..] == run[1..] + [a] && (run + [a])[0] == run[0];
      RunSnoc(cfg, env, Do(cfg, env, s, run[0]), run[1..], a);
    }
  }

  /** The run leads from s to t. */
  ghost predicate Leads(cfg: Config, env: Env, s: State, run: seq<Step>, t: State)
  {
    Legal(cfg, env, s, run) && Run(cfg, env, s, run) == t
  }

  lemma OneMore(cfg: Config, env: Env, s: State, run: seq<Step>, t: State, a: Step)
    requires Leads(cfg, env, s, run, t) && Enabled(t, a)
    ensures Leads(cfg, env, s, run + [a], Do(cfg, env, t, a))
  {
    hide Enabled, Do, Legal, Run;
    RunSnoc(cfg, env, s, run, a);
  }

  const SIGHT := Sight(0, 0, 0)

  function Row(p: string, kind: uint8, hash: string, mode: bv32): Meta
  {
    Meta(p, kind, hash, "", 0, mode, 0, 0, Version(Timestamp(1, 0), "n"), false, 0, 1)
  }

  function NodeWith(rows: Rows, blobs: map<string, Bytes>): NodeState
  {
    NodeState(StoreState(rows, 2, blobs, map[]), Timestamp(1, 0))
  }

  lemma NoTombstonesNoDoom(rows: Rows, inflight: set<string>, disk: DiskMap)
    requires forall p | p in rows :: !rows[p].deleted
    ensures Descending(Doomed(rows, inflight, disk)) == []
  {
    assert Doomed(rows, inflight, disk) == {};
  }

  lemma OnePath(p: string)
    ensures Ascending({p}) == [p]
  {
    LeastIsThere({p});
    assert {p} - {p} == {};
    assert Ascending({p} - {p}) == [];
  }

  lemma TwoPaths(p: string, q: string)
    requires Less(p, q)
    ensures Ascending({p, q}) == [p, q]
  {
    LessAsymmetric(p, q);
    LeastIsThere({p, q});
    assert IsLeast({p, q}, p);
    LeastIsUnique({p, q}, p);
    OnePath(q);
    assert {p, q} - {p} == {q};
  }

  /** The pending event for p is flushed and taken up. */
  lemma EventIsTakenUp(cfg: Config, env: Env, s: State, run: seq<Step>, t: State, p: string, removed: bool)
    requires Leads(cfg, env, s, run, t) && t.loop.Idle? && t.pending == map[p := removed] && t.flushed == []
    ensures Leads(cfg, env, s, run + [Flush([Event(p, removed)])] + [BeginEvents],
                  t.(pending := map[], loop := Applying([Event(p, removed)], 0)))
  {
    var batch := [Event(p, removed)];
    assert batch[0] == Event(p, removed) && p in t.pending;
    assert Lists(batch, t.pending);
    hide Leads, Lists;
    OneMore(cfg, env, s, run, t, Flush(batch));
    var t1 := t.(pending := map[], flushed := [batch]);
    assert [] + [batch] == [batch] && [batch][1..] == [];
    assert Do(cfg, env, t, Flush(batch)) == t1;
    OneMore(cfg, env, s, run + [Flush(batch)], t1, BeginEvents);
  }

  /** An event that finds its path on disk, and not newer than the tree, changes nothing. */
  lemma EventChangesNothing(cfg: Config, env: Env, s: State, run: seq<Step>, t: State, p: string, removed: bool)
    requires Leads(cfg, env, s, run, t) && t.loop == Applying([Event(p, removed)], 0)
    requires p in t.view.disk && IsLive(t.node.store.rows, p) && t.node.store.rows[p].version.hlc.wall >= 0
    ensures Leads(cfg, env, s, run + [EventNext(SIGHT)], t.(loop := Applying([Event(p, removed)], 1)))
  {
    hide Leads, DoPutFile, DoPutDir, DoDelete;
    var ev := Event(p, removed);
    assert [ev][0] == ev;
    assert ApplyEvent(cfg, t.node, t.view, ev, SIGHT) == t.node;
    hide ApplyEvent;
    OneMore(cfg, env, s, run, t, EventNext(SIGHT));
  }

  lemma EventsEnd(cfg: Config, env: Env, s: State, run: seq<Step>, t: State, p: string, removed: bool)
    requires Leads(cfg, env, s, run, t) && t.loop == Applying([Event(p, removed)], 1)
    ensures Leads(cfg, env, s, run + [EndTurn], t.(loop := Idle, inflight := t.inflight - {p}))
  {
    hide Leads;
    OneMore(cfg, env, s, run, t, EndTurn);
    var batch := [Event(p, removed)];
    assert batch[0].path == p;
    assert PathsOf(batch) == {p};
  }

  /** The second half of a render with nothing to remove. */
  lemma RenderEnds(cfg: Config, env: Env, s: State, run: seq<Step>, t: State)
    requires Leads(cfg, env, s, run, t) && t.loop.Writing? && t.loop.k == |t.loop.paths|
    requires forall p | p in t.node.store.rows :: !t.node.store.rows[p].deleted
    ensures Leads(cfg, env, s, run + [BeginRemoving] + [EndTurn], t.(loop := Idle))
  {
    NoTombstonesNoDoom(t.node.store.rows, t.inflight, t.view.disk);
    hide Leads, Doomed, Descending;
    OneMore(cfg, env, s, run, t, BeginRemoving);
    OneMore(cfg, env, s, run + [BeginRemoving], t.(loop := Removing([], 0)), EndTurn);
  }

  /* ----- a child brings its directory back ----- */

  /** p is an empty directory on disk; the tree has it live, and a file q below it that is not on disk yet. */
  ghost predicate ChildArrived(cfg: Config, s: State, p: string, q: string)
  {
    && s.loop.Idle? && s.pending == map[] && s.flushed == [] && s.inflight == {}
    && s.view.disk.Keys == {p} && s.view.disk[p].Directory?
    && s.node.store.rows.Keys == {p, q} && IsBelow(q, p) && Ancestors(q) == {p} && Carried(q)
    && IsLive(s.node.store.rows, p) && s.node.store.rows[p].version.hlc.wall >= 0
    && IsLive(s.node.store.rows, q) && s.node.store.rows[q].kind == KIND_FILE
    && s.node.store.rows[q].hash in s.node.store.blobs && BlobsAddressed(cfg, s.node.store.blobs)
  }

  function ComesBack(p: string): seq<Step>
  {
    [UserRemoves(p)] + [BeginRender] + [WriteNext] + [WriteNext] + [BeginRemoving] + [EndTurn]
    + [Flush([Event(p, true)])] + [BeginEvents] + [EventNext(SIGHT)] + [EndTurn]
  }

  /** After the removal. */
  function Removed(s: State, p: string): State
  {
    s.(view := s.view.(disk := map[]), pending := map[p := true], inflight := {p})
  }

  lemma RemovalHappens(cfg: Config, env: Env, s: State, p: string, q: string)
    requires ChildArrived(cfg, s, p, q)
    ensures Leads(cfg, env, s, [UserRemoves(p)], Removed(s, p))
  {
    assert Leads(cfg, env, s, [], s);
    assert !IsBelow(p, p);
    assert s.view.disk - {p} == map[];
    hide Leads, IsBelow, Carried, BlobsAddressed;
    OneMore(cfg, env, s, [], s, UserRemoves(p));
    assert [] + [UserRemoves(p)] == [UserRemoves(p)];
  }

  /** The render that is due lists both paths and passes over the claimed one. */
  lemma RenderBegins(cfg: Config, env: Env, s: State, p: string, q: string)
    requires ChildArrived(cfg, s, p, q)
    ensures Leads(cfg, env, s, [UserRemoves(p)] + [BeginRender] + [WriteNext],
                  Removed(s, p).(loop := Writing(s.node.store.rows, [p, q], 1)))
  {
    RemovalHappens(cfg, env, s, p, q);
    PrefixIsLess(p, q[|p|..]);
    assert p + q[|p|..] == q;
    TwoPaths(p, q);
    assert LivePaths(s.node.store.rows) == {p, q};
    hide Leads, IsBelow, Carried, BlobsAddressed, Ascending, Less, LivePaths, RenderDir, RenderFile;
    var t := Removed(s, p);
    OneMore(cfg, env, s, [UserRemoves(p)], t, BeginRender);
    var t1 := t.(loop := Writing(s.node.store.rows, [p, q], 0));
    OneMore(cfg, env, s, [UserRemoves(p)] + [BeginRender], t1, WriteNext);
  }

  lemma ChildIsWritten(cfg: Config, env: Env, s: State, p: string, q: string)
    requires ChildArrived(cfg, s, p, q)
    ensures var back := RenderOne(cfg, env, {p}, s.node, Removed(s, p).view, q);
            && p in back.disk && back.disk[p].Directory?
            && Leads(cfg, env, s, [UserRemoves(p)] + [BeginRender] + [WriteNext] + [WriteNext],
                     Removed(s, p).(view := back, loop := Writing(s.node.store.rows, [p, q], 2)))
  {
    RenderBegins(cfg, env, s, p, q);
    var t := Removed(s, p).(loop := Writing(s.node.store.rows, [p, q], 1));
    assert Listed(t) == s.node && q != p;
    assert BringsBack({p}, s.node, map[], p, q);
    ChildBringsBack(cfg, env, {p}, s.node, t.view, p, q);
    ChildIsContained(cfg, env, s.node, t.view, p, q);
    hide Leads, IsBelow, Carried, BlobsAddressed, RenderOne;
    OneMore(cfg, env, s, [UserRemoves(p)] + [BeginRender] + [WriteNext], t, WriteNext);
  }

  lemma ChildIsContained(cfg: Config, env: Env, n: NodeState, v: View, p: string, q: string)
    requires v.disk == map[] && q in n.store.rows && n.store.rows[q].kind == KIND_FILE && q != p
    requires Carried(q) && BlobsAddressed(cfg, n.store.blobs)
    ensures Contained(v.disk, RenderOne(cfg, env, {p}, n, v, q).disk, q)
  {
    FileRendered(cfg, env, n.store.blobs, v, q, n.store.rows[q]);
    hide Contained, RenderFile;
  }

  /** The removal is taken up, finds the directory, and is done with. */
  lemma RemovalIsLost(cfg: Config, env: Env, s: State, run: seq<Step>, t: State, p: string)
    requires Leads(cfg, env, s, run, t) && t.loop.Idle? && t.pending == map[p := true] && t.flushed == []
    requires p in t.view.disk && IsLive(t.node.store.rows, p) && t.node.store.rows[p].version.hlc.wall >= 0
    ensures Leads(cfg, env, s, run + [Flush([Event(p, true)])] + [BeginEvents] + [EventNext(SIGHT)] + [EndTurn],
                  t.(pending := map[], inflight := t.inflight - {p}))
  {
    hide Leads, IsLive;
    EventIsTakenUp(cfg, env, s, run, t, p, true);
    var t1 := t.(pending := map[], loop := Applying([Event(p, true)], 0));
    EventChangesNothing(cfg, env, s, run + [Flush([Event(p, true)])] + [BeginEvents], t1, p, true);
    EventsEnd(cfg, env, s, run + [Flush([Event(p, true)])] + [BeginEvents] + [EventNext(SIGHT)],
              t1.(loop := Applying([Event(p, true)], 1)), p, true);
  }

  /**
   The deletion of a directory undone by a render. p is an empty directory on disk,
   live in the tree, with a live file below it that has only just arrived. p is
   removed by hand; the render that is due writes the file and with it the
   directory; the removal then finds a directory there and does nothing. In the end
   all events are handled, p is back on disk, and its row is as live as before.
   */
  lemma RenderUndoesRemoval(cfg: Config, env: Env, s: State, p: string, q: string)
    requires ChildArrived(cfg, s, p, q)
    ensures Legal(cfg, env, s, ComesBack(p))
    ensures var end := Run(cfg, env, s, ComesBack(p));
            && p in end.view.disk && end.view.disk[p].Directory?
            && end.node == s.node && IsLive(end.node.store.rows, p)
            && end.pending == map[] && end.flushed == [] && end.inflight == {} && end.loop.Idle?
  {
    ChildIsWritten(cfg, env, s, p, q);
    hide Leads, IsBelow, Carried, BlobsAddressed, RenderOne, Legal, Run, Do, Enabled;
    var back := RenderOne(cfg, env, {p}, s.node, Removed(s, p).view, q);
    var run := [UserRemoves(p)] + [BeginRender] + [WriteNext] + [WriteNext];
    var t := Removed(s, p).(view := back, loop := Writing(s.node.store.rows, [p, q], 2));
    RenderEnds(cfg, env, s, run, t);
    RemovalIsLost(cfg, env, s, run + [BeginRemoving] + [EndTurn], t.(loop := Idle), p);
    LeadsTo(cfg, env, s, ComesBack(p), t.(loop := Idle, pending := map[], inflight := t.inflight - {p}));
  }

  lemma LeadsTo(cfg: Config, env: Env, s: State, run: seq<Step>, t: State)
    requires Leads(cfg, env, s, run, t)
    ensures Legal(cfg, env, s, run) && Run(cfg, env, s, run) == t
  {
  }

  lemma ChildIsBelow()
    ensures IsBelow("a/f", "a") && Ancestors("a/f") == {"a"} && Carried("a/f")
  {
    var q := "a/f";
    assert q[..1] == "a" && q[0] == 'a' && q[1] == '/' && |q| == 3;
    forall p ensures p in Ancestors(q) <==> p == "a" {
      AncestorsExact(q, p);
      assert IsBelow(q, p) ==> |p| == 1 && p == q[..1];
    }
    SplitPlain("a");
    SplitPlain("f");
    SplitAppend("a/", "f");
    assert "a/" + "f" == q;
    assert "a/"[1..] == "/" && "/"[1..] == "" && Split("/") == ["", ""];
  }

  /** Such a state: a directory "a", and a file "a/f" of any content. */
  lemma AChildMayArrive(cfg: Config, content: Bytes)
    ensures var rows := map["a" := Row("a", KIND_DIR, "", DIR_MODE),
                            "a/f" := Row("a/f", KIND_FILE, cfg.hash(content), 0)];
            var disk := map["a" := Directory(DIR_MODE, 0, 0)];
            ChildArrived(cfg, State(NodeWith(rows, map[cfg.hash(content) := content]), View(disk, false, 0),
                                    {}, map[], [], Idle), "a", "a/f")
  {
    ChildIsBelow();
    hide IsBelow, Ancestors, Carried;
  }

  /* ----- a claim given up too early ----- */

  /** p is a file of the tree's, on disk with the tree's content. */
  ghost predicate InStep(cfg: Config, s: State, p: string)
  {
    && s.loop.Idle? && s.pending == map[] && s.flushed == [] && s.inflight == {}
    && IsLive(s.node.store.rows, p) && s.node.store.rows.Keys == {p}
    && s.view.disk.Keys == {p} && SameContent(cfg, s.view.disk, p, s.node.store.rows[p])
    && s.node.store.rows[p].kind == KIND_FILE
    && s.node.store.rows[p].version.hlc.wall >= 0
    && s.node.store.rows[p].hash in s.node.store.blobs && BlobsAddressed(cfg, s.node.store.blobs)
    && PlainMode(s.node.store.rows[p].mode) && NameFits(p) && Carried(p) && Ancestors(p) == {}
  }

  /** Such a state: a file "f" of any content. */
  lemma AFileMayBeInStep(cfg: Config, content: Bytes)
    ensures var hash := cfg.hash(content);
            InStep(cfg, State(NodeWith(map["f" := Row("f", KIND_FILE, hash, 0)], map[hash := content]),
                              View(map["f" := File(content, 0, 0, 0)], false, 0), {}, map[], [], Idle), "f")
  {
    assert "f"[0] == 'f' && |"f"| == 1;
    SplitPlain("f");
    assert Ancestors("f") == {};
    assert PlainMode(0);
    hide IsBelow, Ancestors;
  }

  /** A touch is being handled when p is removed; the batch ends, and with it the claim. */
  lemma ClaimIsGivenUp(cfg: Config, env: Env, s: State, p: string)
    requires InStep(cfg, s, p)
    ensures Leads(cfg, env, s, [Noticed(p, false)] + [Flush([Event(p, false)])] + [BeginEvents] + [EventNext(SIGHT)]
                               + [UserRemoves(p)] + [EndTurn],
                  Removed(s, p).(inflight := {}))
  {
    assert Leads(cfg, env, s, [], s);
    assert [] + [Noticed(p, false)] == [Noticed(p, false)];
    hide Leads, Carried, BlobsAddressed, NameFits, PlainMode;
    OneMore(cfg, env, s, [], s, Noticed(p, false));
    var t := s.(pending := map[p := false], inflight := {p});
    EventIsTakenUp(cfg, env, s, [Noticed(p, false)], t, p, false);
    var run := [Noticed(p, false)] + [Flush([Event(p, false)])] + [BeginEvents];
    var t1 := t.(pending := map[], loop := Applying([Event(p, false)], 0));
    EventChangesNothing(cfg, env, s, run, t1, p, false);
    RemovedWhileHandled(cfg, env, s, run + [EventNext(SIGHT)], t1.(loop := Applying([Event(p, false)], 1)), p);
  }

  lemma RemovedWhileHandled(cfg: Config, env: Env, s: State, run: seq<Step>, t: State, p: string)
    requires Leads(cfg, env, s, run, t) && t.loop == Applying([Event(p, false)], 1) && t.view.disk.Keys == {p}
    requires t.pending == map[] && t.inflight == {p}
    ensures Leads(cfg, env, s, run + [UserRemoves(p)] + [EndTurn],
                  t.(view := t.view.(disk := map[]), pending := map[p := true], inflight := {}, loop := Idle))
  {
    assert !IsBelow(p, p) && t.view.disk - {p} == map[];
    hide Leads, IsBelow;
    OneMore(cfg, env, s, run, t, UserRemoves(p));
    var t1 := t.(view := t.view.(disk := map[]), pending := map[p := true]);
    EventsEnd(cfg, env, s, run + [UserRemoves(p)], t1, p, false);
  }

  /** The render that follows writes the file again. */
  lemma FileIsBack(cfg: Config, env: Env, s: State, run: seq<Step>, t: State, p: string)
    requires InStep(cfg, s, p) && t == Removed(s, p).(inflight := {}) && Leads(cfg, env, s, run, t)
    ensures var back := RenderOne(cfg, env, {}, s.node, t.view, p);
            && p in back.disk
            && Leads(cfg, env, s, run + [BeginRender] + [WriteNext],
                     t.(view := back, loop := Writing(s.node.store.rows, [p], 1)))
  {
    var rows := s.node.store.rows;
    OnePath(p);
    assert LivePaths(rows) == {p};
    FileShows(cfg, env, s.node, t.view, p);
    hide Leads, Carried, BlobsAddressed, NameFits, PlainMode, Ascending, LivePaths, RenderOne, InPlace;
    OneMore(cfg, env, s, run, t, BeginRender);
    var t1 := t.(loop := Writing(rows, [p], 0));
    assert Listed(t1) == s.node;
    OneMore(cfg, env, s, run + [BeginRender], t1, WriteNext);
  }

  lemma FileShows(cfg: Config, env: Env, n: NodeState, v: View, p: string)
    requires p in n.store.rows && n.store.rows[p].kind == KIND_FILE && v.disk == map[]
    requires n.store.rows[p].hash in n.store.blobs && BlobsAddressed(cfg, n.store.blobs)
    requires PlainMode(n.store.rows[p].mode) && NameFits(p) && Carried(p)
    ensures p in RenderOne(cfg, env, {}, n, v, p).disk
  {
    FileRendered(cfg, env, n.store.blobs, v, p, n.store.rows[p]);
    hide RenderFile, Contained, SanitizeMode, PlainMode, Carried, NameFits, ScratchOf, BlobsAddressed, Ancestors;
  }

  function GivesUp(p: string): seq<Step>
  {
    [Noticed(p, false)] + [Flush([Event(p, false)])] + [BeginEvents] + [EventNext(SIGHT)] + [UserRemoves(p)] + [EndTurn]
    + [BeginRender] + [WriteNext] + [BeginRemoving] + [EndTurn]
    + [Flush([Event(p, true)])] + [BeginEvents] + [EventNext(SIGHT)] + [EndTurn]
  }

  /**
   A deletion undone because the batch being applied was already past the path. The
   file is touched, and removed while that touch is being handled; the end of the
   batch gives up the claim, the next render writes the file again, and the removal
   is taken for a modification.
   */
  lemma EarlyReleaseUndoesRemoval(cfg: Config, env: Env, s: State, p: string)
    requires InStep(cfg, s, p)
    ensures Legal(cfg, env, s, GivesUp(p))
    ensures var end := Run(cfg, env, s, GivesUp(p));
            && p in end.view.disk && end.node == s.node && IsLive(end.node.store.rows, p)
            && end.pending == map[] && end.flushed == [] && end.inflight == {} && end.loop.Idle?
  {
    ClaimIsGivenUp(cfg, env, s, p);
    hide Leads, Legal, Run, Do, Enabled, RenderOne, Carried, BlobsAddressed, NameFits, PlainMode, IsBelow;
    var run := [Noticed(p, false)] + [Flush([Event(p, false)])] + [BeginEvents] + [EventNext(SIGHT)] + [UserRemoves(p)]
      + [EndTurn];
    var t := Removed(s, p).(inflight := {});
    FileIsBack(cfg, env, s, run, t, p);
    var t1 := t.(view := RenderOne(cfg, env, {}, s.node, t.view, p), loop := Writing(s.node.store.rows, [p], 1));
    RenderEnds(cfg, env, s, run + [BeginRender] + [WriteNext], t1);
    RemovalIsLost(cfg, env, s, run + [BeginRender] + [WriteNext] + [BeginRemoving] + [EndTurn], t1.(loop := Idle), p);
    LeadsTo(cfg, env, s, GivesUp(p), t1.(loop := Idle, pending := map[], inflight := {} - {p}));
  }
}
