/**
 A row refused for drift and passed by the bookmark is missed for good: a run on which
 that happens, and what two nodes are left with, however often they pull.
 */
module RefusedRows {
  import opened Wrappers
  import opened Order
  import opened Hlc
  import opened Path
  import opened Entry
  import opened Store
  import opened Transport
  import opened Digest
  import opened Node
  import opened AntiEntropy
  import opened Cluster
  import opened Bookmarks
  import opened LostEdits
  import opened PullSteps
  import opened CatchUp

  /* ----- a pull that finds nothing to read ----- */

  function WholeEmptyPull(l: Link): seq<Action>
  {
    [Greet(l), Compare(l), Ask(l), Receive(l, [])]
  }

  /** The digests differ, yet the peer's feed holds nothing above our bookmark. */
  ghost predicate NothingToRead(w: World, c: Cluster, l: Link)
  {
    && c.nodes.Keys == w.limits.Keys && c.nodes.Keys <= c.hist.known.Keys
    && l.puller in c.nodes && l.peer in c.nodes && l.puller != l.peer && l !in c.pulls
    && var mine, peer := c.nodes[l.puller].store, c.nodes[l.peer].store;
       && DigestOf(w.sha, mine.rows) != DigestOf(w.sha, peer.rows)
       && PeerSeq(mine, l.peer) <= Top(peer.rows)
       && !AnyAbove(peer.rows, PeerSeq(mine, l.peer))
  }

  lemma EmptyFeed(rows: Rows, since: int)
    requires !AnyAbove(rows, since)
    ensures GetManifest(rows, since) == Page([], since, false)
  {
  }

  lemma GreetFinds(w: World, c: Cluster, l: Link)
    requires NothingToRead(w, c, l)
    ensures Enabled(c, Greet(l))
    ensures var c1 := Do(w, c, Greet(l));
            Enabled(c1, Compare(l)) && l.puller in w.limits &&
            DoCompare(w, c1, l) == c.(pulls := c.pulls[l := Asking(PeerSeq(c.nodes[l.puller].store, l.peer),
                                                                   PeerSeq(c.nodes[l.puller].store, l.peer))])
  {
    hide DigestOf, AnyAbove, All, HighestPos;
    var seen := PeerSeq(c.nodes[l.puller].store, l.peer);
    var c1 := Do(w, c, Greet(l));
    assert c1.pulls[l := Asking(seen, seen)] == c.pulls[l := Asking(seen, seen)];
  }

  lemma AskFinds(w: World, c: Cluster, l: Link)
    requires NothingToRead(w, c, l)
    ensures var seen := PeerSeq(c.nodes[l.puller].store, l.peer);
            var c2 := c.(pulls := c.pulls[l := Asking(seen, seen)]);
            && Enabled(c2, Ask(l))
            && var c3 := Do(w, c2, Ask(l));
               Enabled(c3, Receive(l, [])) && CleanStep(w, c3, Receive(l, [])) && Do(w, c3, Receive(l, [])) == c
  {
    var seen := PeerSeq(c.nodes[l.puller].store, l.peer);
    EmptyFeed(c.nodes[l.peer].store.rows, seen);
    hide DigestOf, AnyAbove, GetManifest, ApplyRemote, AbsorbedPaths, RejectedRows, Norms, StoredBy, All, HighestPos;
    var c2 := c.(pulls := c.pulls[l := Asking(seen, seen)]);
    var c3 := Do(w, c2, Ask(l));
    assert c3.pulls[l].page.entries == [];
    assert c3.pulls - {l} == c.pulls;
  }

  lemma StepFirst(w: World, c: Cluster, l: Link, a: Action, rest: seq<Action>)
    requires c.nodes.Keys == w.limits.Keys && Enabled(c, a) && OfPull(l, a) && CleanStep(w, c, a)
    requires Legal(w, Do(w, c, a), rest) && CleanPull(w, Do(w, c, a), l, rest)
    ensures Legal(w, c, [a] + rest) && CleanPull(w, c, l, [a] + rest)
    ensures Run(w, c, [a] + rest) == Run(w, Do(w, c, a), rest)
  {
    hide Do, Enabled, CleanStep;
    assert ([a] + rest)[1..] == rest && ([a] + rest)[0] == a;
  }

  /** Such a pull is whole and clean, and leaves everything as it was. */
  lemma EmptyPullChangesNothing(w: World, c: Cluster, l: Link)
    requires NothingToRead(w, c, l)
    ensures WholePull(w, c, l, WholeEmptyPull(l)) && Run(w, c, WholeEmptyPull(l)) == c
  {
    GreetFinds(w, c, l);
    AskFinds(w, c, l);
    var seen := PeerSeq(c.nodes[l.puller].store, l.peer);
    var c1, c2 := Do(w, c, Greet(l)), c.(pulls := c.pulls[l := Asking(seen, seen)]);
    var c3 := Do(w, c2, Ask(l));
    assert Do(w, c1, Compare(l)) == c2 && c1.nodes == c.nodes && c3.nodes == c.nodes;
    assert Legal(w, c, []) && CleanPull(w, c, l, []) && Run(w, c, []) == c;
    hide DigestOf, GetManifest, Do, Enabled, Legal, CleanPull, Run;
    StepFirst(w, c3, l, Receive(l, []), []);
    StepFirst(w, c2, l, Ask(l), [Receive(l, [])] + []);
    StepFirst(w, c1, l, Compare(l), [Ask(l)] + ([Receive(l, [])] + []));
    StepFirst(w, c, l, Greet(l), [Compare(l)] + ([Ask(l)] + ([Receive(l, [])] + [])));
    assert WholeEmptyPull(l) == [Greet(l)] + ([Compare(l)] + ([Ask(l)] + ([Receive(l, [])] + [])));
  }

  /* ----- a row refused for drift ----- */

  const FAR: int64 := MAX_CLOCK_DRIFT + 1
  const OPEN := Input(0, 0, None)

  /** Nodes a and b, and a path d that a makes a directory of. */
  datatype Pair = Pair(a: string, b: string, d: string)

  ghost predicate Fits(w: World, p: Pair)
  {
    && GoodWorld(w) && w.limits.Keys == {p.a, p.b} && p.a != p.b && w.limits[p.b] >= 0
    && SanitizePath(p.d).Ok? && !IsConflictName(p.d)
  }

  /** Such a pair: nodes "a" and "b", and a path "d". */
  lemma APairMayFit()
    ensures Fits(World(map["a" := 1, "b" := 1], content => "", text => text), Pair("a", "b", "d"))
  {
    PlainLetter('d');
    SplitPlain("d");
    hide Split, Clean;
  }

  /** The row of a's directory, stamped by a clock that runs ahead. */
  function Row(p: Pair): Meta
  {
    Meta(p.d, KIND_DIR, "", "", 0, 0, 0, 0, Version(Timestamp(FAR, 0), p.a), false, 0, 1)
  }

  function Ahead(p: Pair): NodeState
  {
    NodeState(StoreState(map[p.d := Row(p)], 1, map[], map[]), Timestamp(FAR, 0))
  }

  ghost function Stage(p: Pair, b: NodeState, pulls: map<Link, Phase>, refused: set<Meta>): Cluster
  {
    Cluster(map[p.a := Ahead(p), p.b := b], pulls,
            History({Norm(Row(p))}, map[Row(p).version := ""], map[p.a := {Norm(Row(p))}, p.b := {}],
                    map[p.a := {}, p.b := refused]))
  }

  ghost function Fresh(p: Pair): Cluster
  {
    Cluster(map[p.a := FRESH_NODE, p.b := FRESH_NODE], map[],
            History({}, map[], map[p.a := {}, p.b := {}], map[p.a := {}, p.b := {}]))
  }

  lemma FreshIsInit(w: World, p: Pair)
    requires Fits(w, p)
    ensures Init(w, Fresh(p))
  {
    hide SanitizePath, IsConflictName, GoodWorld;
  }

  /** A step that may be taken, and where it leads. */
  ghost predicate Takes(w: World, c: Cluster, a: Action, c': Cluster)
  {
    c.nodes.Keys == w.limits.Keys && Enabled(c, a) && Careful(c, a) && Do(w, c, a) == c'
  }

  function Make(p: Pair): Action
  {
    Write(p.a, PutDir(p.d, 0, 0, 0), FAR)
  }

  lemma RowIsMade(w: World, p: Pair)
    requires Fits(w, p)
    ensures var o := RunLocal(Cfg(w, p.a), FRESH_NODE, PutDir(p.d, 0, 0, 0), FAR);
            o.batch == [Row(p).(pos := 0)] && o.node == Ahead(p)
  {
    hide SanitizePath, IsConflictName, GoodWorld;
    assert SanitizeMode(0) == 0;
    WriteLands(Cfg(w, p.a), FRESH_NODE, PutDir(p.d, 0, 0, 0), FAR);
  }

  lemma Writes(w: World, p: Pair)
    requires Fits(w, p)
    ensures Takes(w, Fresh(p), Make(p), Stage(p, FRESH_NODE, map[], {}))
  {
    RowIsMade(w, p);
    hide SanitizePath, IsConflictName, GoodWorld, RunLocal;
    var o := RunLocal(Cfg(w, p.a), FRESH_NODE, PutDir(p.d, 0, 0, 0), FAR);
    assert o.batch[0] in o.batch && Norm(o.batch[0]) == Norm(Row(p));
    assert Norms(o.batch) == {Norm(o.batch[0])};
    assert LastIndex(o.batch, 1, p.d) == 0;
    assert StoredBy(o.node.store.rows, o.batch) == {Norm(Row(p))};
    hide Norms, StoredBy, Ahead, Touches, LastIndex;
    var c' := DoWrite(w, Fresh(p), p.a, PutDir(p.d, 0, 0, 0), FAR);
    assert c'.nodes == map[p.a := Ahead(p), p.b := FRESH_NODE];
    assert c'.hist.writes == {} + {Norm(Row(p))} == {Norm(Row(p))};
    assert c'.hist.known[p.a] == {} + {Norm(Row(p))} == {Norm(Row(p))};
    assert c'.hist == Stage(p, FRESH_NODE, map[], {}).hist;
  }

  lemma OneRow(w: World, p: Pair)
    requires Fits(w, p)
    ensures var rows := Ahead(p).store.rows;
            && All(rows) == [Row(p)] && HighestPos(All(rows), 1) == 1
            && GetManifest(rows, 0) == Page([Row(p)], 1, false) && !AnyAbove(rows, 1)
            && DigestOf(w.sha, rows) != DigestOf(w.sha, map[])
  {
    var rows: Rows := Ahead(p).store.rows;
    assert rows.Keys == {p.d} && WellFormed(Ahead(p).store);
    LeastIsThere({p.d});
    assert {p.d} - {p.d} == {};
    assert Sorted(rows, {p.d} - {p.d}) == [];
    assert All(rows) == [Row(p)];
    assert HighestPos(All(rows), 0) == 0;
    ManifestIsPage(Ahead(p).store, 0);
    OneRowPage(p, rows, GetManifest(rows, 0));
    assert p.d in rows;
    assert !SameTree(rows, map[]);
    SanitizeExact(p.d);
    assert Encodable(rows) && Encodable(map[]);
    DigestIsFaithful(w.sha, rows, map[]);
  }

  lemma FirstIsBelowSecond(since: int, feed: seq<Meta>)
    requires IsAscending(since, feed)
    ensures |feed| > 1 ==> feed[0].pos < feed[1].pos
  {
  }

  lemma OneRowPage(p: Pair, rows: Rows, page: Page)
    requires rows == map[p.d := Row(p)] && IsPage(rows, 0, page)
    ensures page == Page([Row(p)], 1, false)
  {
    assert AnyAbove(rows, 0) by {
      assert rows[p.d].pos > 0;
    }
    assert forall i | 0 <= i < |page.entries| :: page.entries[i] == Row(p);
    assert page.entries == [] ==> page.head == 0;
    FirstIsBelowSecond(0, page.entries);
    assert page.entries == [Row(p)];
  }

  /** The page is judged: refused, and passed. */
  lemma RowIsRefused(w: World, p: Pair)
    requires Fits(w, p)
    ensures var cfg := Cfg(w, p.b);
            && FateOf(cfg, FRESH_NODE, [Row(p)], [OPEN], 0) == Rejected
            && ApplyRemote(cfg, FRESH_NODE, [Row(p)], [OPEN]) == Applied(FRESH_NODE, [], 1)
  {
    var cfg := Cfg(w, p.b);
    hide SanitizePath, IsConflictName;
    assert Valid(cfg, Row(p));
    DriftIsRefused(ZERO_TIMESTAMP, Row(p).version.hlc, 0);
    assert Merge(ZERO_TIMESTAMP, Row(p).version.hlc, 0).None?;
    var j := Judge(cfg, map[], Start(FRESH_NODE), Row(p), OPEN);
    assert j == Judged(Acc(ZERO_TIMESTAMP, map[], [], 1, false), Rejected);
    hide Judge;
    assert Fold(cfg, map[], Start(FRESH_NODE), [Row(p)], [OPEN], 0) == Start(FRESH_NODE);
    assert AccAt(cfg, FRESH_NODE, [Row(p)], [OPEN], 1) == j.acc;
    assert FRESH_NODE.store.(blobs := map[]) == FRESH_NODE.store;
    assert Apply(FRESH_NODE.store, []) == FRESH_NODE.store;
  }

  /* ----- the run ----- */

  function To(p: Pair): Link
  {
    Link(p.b, p.a)
  }

  ghost function Greeting(w: World, p: Pair): Cluster
  {
    Stage(p, FRESH_NODE, map[To(p) := Greeted(DigestOf(w.sha, Ahead(p).store.rows), 1, Ahead(p).store.rows)], {})
  }

  ghost function Starting(p: Pair): Cluster
  {
    Stage(p, FRESH_NODE, map[To(p) := Asking(0, 0)], {})
  }

  ghost function Serving(p: Pair): Cluster
  {
    Stage(p, FRESH_NODE, map[To(p) := Holding(0, 0, Page([Row(p)], 1, false), {Norm(Row(p))})], {})
  }

  ghost function Passing(p: Pair): Cluster
  {
    Stage(p, FRESH_NODE, map[To(p) := Recording(1, 1, false)], {Norm(Row(p))})
  }

  /** The cluster once b has refused the row and passed it. */
  ghost function Refused(p: Pair): Cluster
  {
    Stage(p, WithBookmark(FRESH_NODE, p.a, 1), map[], {Norm(Row(p))})
  }

  lemma Greets(w: World, p: Pair)
    requires Fits(w, p)
    ensures Takes(w, Stage(p, FRESH_NODE, map[], {}), Greet(To(p)), Greeting(w, p))
  {
    OneRow(w, p);
    hide DigestOf, All, HighestPos, Ahead, SanitizePath, IsConflictName, GoodWorld;
  }

  lemma Compares(w: World, p: Pair)
    requires Fits(w, p)
    ensures Takes(w, Greeting(w, p), Compare(To(p)), Starting(p))
  {
    OneRow(w, p);
    hide DigestOf, All, HighestPos, Ahead, SanitizePath, IsConflictName, GoodWorld;
    assert Greeting(w, p).pulls[To(p) := Asking(0, 0)] == map[To(p) := Asking(0, 0)];
  }

  lemma Asks(w: World, p: Pair)
    requires Fits(w, p)
    ensures Takes(w, Starting(p), Ask(To(p)), Serving(p))
  {
    OneRow(w, p);
    hide DigestOf, All, HighestPos, GetManifest, SanitizePath, IsConflictName, GoodWorld;
    assert Starting(p).nodes[p.a].store.rows == Ahead(p).store.rows;
    assert Starting(p).pulls[To(p) := Serving(p).pulls[To(p)]] == Serving(p).pulls;
  }

  lemma RefusedHistory(w: World, p: Pair)
    requires Fits(w, p)
    ensures var cfg := Cfg(w, p.b);
            && RejectedRows(cfg, FRESH_NODE, [Row(p)], [OPEN]) == {Norm(Row(p))}
            && AbsorbedPaths(cfg, FRESH_NODE, [Row(p)], [OPEN]) == {}
            && Norms([]) == {} && StoredBy(FRESH_NODE.store.rows, []) == {}
  {
    RowIsRefused(w, p);
    hide FateOf, ApplyRemote, SanitizePath, IsConflictName, GoodWorld;
    assert [Row(p)][0] == Row(p);
  }

  /** A page of which nothing is absorbed or stored teaches the puller nothing, and adds to what it refused. */
  lemma ReceiveTeaches(w: World, c: Cluster, l: Link, inputs: seq<Input>, cfg: Config)
    requires Enabled(c, Receive(l, inputs)) && l.puller in w.limits && cfg == Cfg(w, l.puller)
    requires c.pulls[l].page.entries != [] && c.hist.known.Keys == c.hist.rejected.Keys && l.puller in c.hist.known
    requires var n, entries := c.nodes[l.puller], c.pulls[l].page.entries;
             var a := ApplyRemote(cfg, n, entries, inputs);
             a.batch == [] && AbsorbedPaths(cfg, n, entries, inputs) == {} && StoredBy(a.node.store.rows, []) == {}
    ensures var h' := DoReceive(w, c, l, inputs).hist;
            && h'.known == c.hist.known
            && h'.rejected == c.hist.rejected[l.puller := c.hist.rejected[l.puller]
                              + RejectedRows(cfg, c.nodes[l.puller], c.pulls[l].page.entries, inputs)]
  {
    hide ApplyRemote, RejectedRows, AbsorbedPaths, Norms, StoredBy;
    var h := c.pulls[l];
    assert (set m | m in h.past && m.path in AbsorbedPaths(cfg, c.nodes[l.puller], h.page.entries, inputs) :: m) == {};
  }

  lemma Receives(w: World, p: Pair)
    requires Fits(w, p)
    ensures Takes(w, Serving(p), Receive(To(p), [OPEN]), Passing(p))
  {
    RowIsRefused(w, p);
    RefusedHistory(w, p);
    hide FateOf, ApplyRemote, RejectedRows, AbsorbedPaths, Norms, StoredBy, Ahead, SanitizePath, IsConflictName,
      GoodWorld;
    assert [Row(p)][0] == Row(p);
    var c, c' := Serving(p), DoReceive(w, Serving(p), To(p), [OPEN]);
    var cfg, h := Cfg(w, p.b), Serving(p).pulls[To(p)];
    assert h.page.entries == [Row(p)] && c.nodes[p.b] == FRESH_NODE && Max(h.bookmark, 1) == 1;
    assert c'.pulls == map[To(p) := Recording(1, 1, false)];
    assert c'.nodes == c.nodes;
    ReceiveTeaches(w, c, To(p), [OPEN], cfg);
    assert c'.hist.known == c.hist.known;
    assert RejectedRows(cfg, c.nodes[p.b], h.page.entries, [OPEN]) == {Norm(Row(p))};
    assert c'.hist.rejected[p.b] == {} + {Norm(Row(p))} == {Norm(Row(p))};
    assert c'.hist.rejected == Passing(p).hist.rejected;
  }

  lemma Records(w: World, p: Pair)
    requires Fits(w, p)
    ensures Takes(w, Passing(p), Record(To(p)), Refused(p))
  {
    hide Ahead, SanitizePath, IsConflictName, GoodWorld;
    assert Passing(p).pulls - {To(p)} == map[];
  }

  lemma CarefulFirst(w: World, c: Cluster, a: Action, c': Cluster, rest: seq<Action>, end: Cluster)
    requires Takes(w, c, a, c') && Legal(w, c', rest) && CarefulRun(w, c', rest) && Run(w, c', rest) == end
    ensures Legal(w, c, [a] + rest) && CarefulRun(w, c, [a] + rest) && Run(w, c, [a] + rest) == end
  {
    hide Do, Enabled, Careful;
    assert ([a] + rest)[1..] == rest && ([a] + rest)[0] == a;
  }

  function RefusingRun(p: Pair): seq<Action>
  {
    [Make(p)] + ([Greet(To(p))] + ([Compare(To(p))] + ([Ask(To(p))]
    + ([Receive(To(p), [OPEN])] + ([Record(To(p))] + [])))))
  }

  lemma RunRefuses(w: World, p: Pair)
    requires Fits(w, p)
    ensures Legal(w, Fresh(p), RefusingRun(p)) && CarefulRun(w, Fresh(p), RefusingRun(p))
    ensures Run(w, Fresh(p), RefusingRun(p)) == Refused(p)
  {
    var end, l := Refused(p), To(p);
    assert Legal(w, end, []) && CarefulRun(w, end, []) && Run(w, end, []) == end;
    hide Takes, Legal, CarefulRun, Run, Ahead, Stage, Fresh, Refused, Greeting, Starting, Serving, Passing, Fits,
      Make, To;
    Records(w, p);
    CarefulFirst(w, Passing(p), Record(l), end, [], end);
    Receives(w, p);
    CarefulFirst(w, Serving(p), Receive(l, [OPEN]), Passing(p), [Record(l)] + [], end);
    Asks(w, p);
    CarefulFirst(w, Starting(p), Ask(l), Serving(p), [Receive(l, [OPEN])] + ([Record(l)] + []), end);
    Compares(w, p);
    CarefulFirst(w, Greeting(w, p), Compare(l), Starting(p),
                 [Ask(l)] + ([Receive(l, [OPEN])] + ([Record(l)] + [])), end);
    Greets(w, p);
    CarefulFirst(w, Stage(p, FRESH_NODE, map[], {}), Greet(l), Greeting(w, p),
                 [Compare(l)] + ([Ask(l)] + ([Receive(l, [OPEN])] + ([Record(l)] + []))), end);
    Writes(w, p);
    CarefulFirst(w, Fresh(p), Make(p), Stage(p, FRESH_NODE, map[], {}),
                 [Greet(l)] + ([Compare(l)] + ([Ask(l)] + ([Receive(l, [OPEN])] + ([Record(l)] + [])))), end);
  }

  lemma RefusedHolds(w: World, p: Pair)
    requires Fits(w, p)
    ensures var c := Refused(p);
            && NothingToRead(w, c, Link(p.b, p.a)) && NothingToRead(w, c, Link(p.a, p.b))
            && Missed(c, Link(p.b, p.a), p.d)
  {
    OneRow(w, p);
    hide DigestOf, GetManifest, SanitizePath, IsConflictName, GoodWorld, All, HighestPos;
    var c := Refused(p);
    assert c.nodes[p.a].store.rows == Ahead(p).store.rows;
    assert p.d in c.nodes[p.a].store.rows && p.d !in c.nodes[p.b].store.rows;
    assert PeerSeq(c.nodes[p.b].store, p.a) == 1;
  }

  lemma HypothesesHold(w: World, p: Pair)
    requires Fits(w, p)
    ensures HandsOff(RefusingRun(p)) && OneContent(Refused(p).hist.writes)
  {
    hide SanitizePath, IsConflictName, GoodWorld;
    assert !HoldsContent(Norm(Row(p)));
  }

  /** The puller has missed the peer's row for q, and the two trees differ. */
  ghost predicate LeftApart(c: Cluster, l: Link, q: string)
  {
    Missed(c, l, q) && !IdenticalTrees(RowsOf(c, l.puller), RowsOf(c, l.peer))
  }

  /**
   A refused row keeps trees apart. a, whose clock runs ahead, makes a directory; b
   pulls, refuses the row for drift, and passes it with its bookmark. All that
   TwoNodeConvergence asks for but being caught up is met in the state reached, and
   whole clean pulls can be had in both directions. Whatever pulls follow between the
   two, b stays without the directory.
   */
  lemma RefusedRowKeepsTreesApart(w: World, p: Pair)
    requires Fits(w, p)
    ensures Init(w, Fresh(p)) && Legal(w, Fresh(p), RefusingRun(p)) && CarefulRun(w, Fresh(p), RefusingRun(p))
    ensures HandsOff(RefusingRun(p))
    ensures var c, there, back := Run(w, Fresh(p), RefusingRun(p)), Link(p.b, p.a), Link(p.a, p.b);
            && OneContent(c.hist.writes) && Missed(c, there, p.d)
            && WholePull(w, c, there, WholeEmptyPull(there)) && Run(w, c, WholeEmptyPull(there)) == c
            && WholePull(w, c, back, WholeEmptyPull(back)) && Run(w, c, WholeEmptyPull(back)) == c
            && forall syncs | IsSweep(w, c, syncs) && BothWays(there, syncs) ::
                 LeftApart(At(w, c, syncs, |syncs|), there, p.d)
  {
    hide Legal, Run, CarefulRun, HandsOff, Init, WholePull, OneContent, NothingToRead, Fresh, Refused, IdenticalTrees,
      RefusingRun, WholeEmptyPull, PassedAt, Since, IsSweep, At, BothWays, GoodWorld, SanitizePath, IsConflictName;
    FreshIsInit(w, p);
    RunRefuses(w, p);
    HypothesesHold(w, p);
    RefusedHolds(w, p);
    EmptyPullChangesNothing(w, Refused(p), Link(p.b, p.a));
    EmptyPullChangesNothing(w, Refused(p), Link(p.a, p.b));
    var c, there := Refused(p), Link(p.b, p.a);
    forall syncs | IsSweep(w, c, syncs) && BothWays(there, syncs)
      ensures LeftApart(At(w, c, syncs, |syncs|), there, p.d)
    {
      MissedForGood(w, Fresh(p), RefusingRun(p), there, syncs, p.d);
    }
  }
}
