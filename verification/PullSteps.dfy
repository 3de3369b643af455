/**
 What a pull keeps, step by step, while it walks the feed of a peer that stands
 still: where rows come from, how far the walk has come, and what it has covered.
 */
module PullSteps {
  import opened Wrappers
  import opened Hlc
  import opened Path
  import opened Entry
  import opened Resolution
  import opened Store
  import opened Transport
  import opened Digest
  import opened Node
  import opened AntiEntropy
  import opened NodeFacts
  import opened PageEffects
  import opened EditsKept
  import opened Cluster
  import opened ClusterInvariant
  import opened Bookmarks
  import opened LostEdits

  /** a is a step of a pull over link l. */
  predicate OfPull(l: Link, a: Action)
  {
    a == Greet(l) || a == Compare(l) || a == Ask(l) || a == Record(l) || (a.Receive? && a.link == l)
  }

  /** No entry of the page is deferred or rejected. */
  ghost predicate CleanPage(cfg: Config, n: NodeState, entries: seq<Meta>, inputs: seq<Input>)
    requires |entries| == |inputs|
  {
    forall i | 0 <= i < |entries| ::
      FateOf(cfg, n, entries, inputs, i).Stored? || FateOf(cfg, n, entries, inputs, i).Skipped?
  }

  ghost predicate CleanStep(w: World, c: Cluster, a: Action)
    requires Enabled(c, a) && c.nodes.Keys == w.limits.Keys
  {
    a.Receive? ==>
      CleanPage(Cfg(w, a.link.puller), c.nodes[a.link.puller], c.pulls[a.link].page.entries, a.inputs)
  }

  /** A run made of the steps of clean pulls over l. */
  ghost predicate CleanPull(w: World, c: Cluster, l: Link, run: seq<Action>)
    requires Legal(w, c, run)
    decreases |run|
  {
    run == [] ||
    (OfPull(l, run[0]) && CleanStep(w, c, run[0]) && CleanPull(w, Do(w, c, run[0]), l, run[1..]))
  }

  /** One or more whole pulls over l, with nothing else in between. */
  ghost predicate WholePull(w: World, c: Cluster, l: Link, run: seq<Action>)
  {
    && l.puller in c.nodes && l.peer in c.nodes && l.puller != l.peer
    && Legal(w, c, run) && CleanPull(w, c, l, run)
    && run != [] && run[0] == Greet(l) && l !in Run(w, c, run).pulls
  }

  /** The tree of node n. */
  function RowsOf(c: Cluster, n: string): Rows
    requires n in c.nodes
  {
    c.nodes[n].store.rows
  }

  /** The highest feed position a digest reply reports. */
  ghost function Top(rows: Rows): int
  {
    HighestPos(All(rows), |All(rows)|)
  }

  /** The position a pull over l starts reading at: the bookmark, or the beginning when the peer is behind it. */
  ghost function Since(c: Cluster, l: Link): int
    requires l.puller in c.nodes && l.peer in c.nodes
  {
    var seen := PeerSeq(c.nodes[l.puller].store, l.peer);
    if Top(RowsOf(c, l.peer)) < seen then 0 else seen
  }

  /* ----- what holds while a pull runs ----- */

  /** Where a row of the puller comes from: its own start, its peer, or a conflict copy. */
  predicate ComesFrom(start: Rows, peer: Rows, quiet: bool, p: string, m: Meta)
  {
    || (p in start && Norm(m) == Norm(start[p]))
    || (p in peer && Norm(m) == Norm(peer[p]))
    || (!quiet && IsConflictName(p))
  }

  ghost predicate RowsComeFrom(start: Rows, peer: Rows, quiet: bool, rows: Rows)
  {
    forall p | p in rows :: ComesFrom(start, peer, quiet, p, rows[p])
  }

  /** No row of the peer would conflict with the puller's. */
  ghost predicate NoConflicts(mine: Rows, peer: Rows)
  {
    forall p | p in mine && p in peer :: !Resolve(Some(mine[p]), peer[p]).Conflict?
  }

  /** What the feed position since hides from a pull: nothing at those paths has changed, but for conflict copies. */
  ghost predicate Untouched(start: Rows, peer: Rows, since: int, rows: Rows)
  {
    forall p | p in peer && peer[p].pos <= since && !IsConflictName(p) ::
      (p in rows <==> p in start) && (p in start ==> rows[p] == start[p])
  }

  /** How the puller's tree has moved since a pull began. */
  ghost predicate Moved(start: StoreState, peer: Rows, since: int, quiet: bool, now: StoreState)
  {
    && RowsComeFrom(start.rows, peer, quiet, now.rows)
    && Rises(start.rows, now.rows) && OldFeedKept(start, now)
    && Untouched(start.rows, peer, since, now.rows)
  }

  /** Between s and now c, only the puller of l moved, by what it pulled over l. */
  ghost predicate OnlyPulled(s: Cluster, c: Cluster, l: Link, quiet: bool)
  {
    && l.puller in s.nodes && l.peer in s.nodes && l.puller != l.peer
    && c.nodes.Keys == s.nodes.Keys
    && (forall n | n in s.nodes && n != l.puller :: c.nodes[n] == s.nodes[n])
    && (forall n | n != l.peer :: PeerSeq(c.nodes[l.puller].store, n) == PeerSeq(s.nodes[l.puller].store, n))
    && Moved(s.nodes[l.puller].store, RowsOf(s, l.peer), Since(s, l), quiet, c.nodes[l.puller].store)
    && (quiet ==> NoConflicts(RowsOf(s, l.puller), RowsOf(s, l.peer)))
    && (if quiet then c.hist.writes == s.hist.writes else s.hist.writes <= c.hist.writes)
  }

  ghost predicate AllRead(rows: Rows, upto: int)
  {
    forall p | p in rows :: rows[p].pos <= upto
  }

  predicate Between(since: int, cursor: int, bookmark: int, top: int)
  {
    since <= cursor <= bookmark <= top
  }

  /** The walk over the peer's feed stands where its phase says, between since and the feed's end. */
  ghost predicate WalkOk(sha: string -> string, peer: Rows, since: int, ph: Phase)
  {
    match ph
    case Greeted(digest, head, _) => digest == DigestOf(sha, peer) && head == Top(peer)
    case Asking(cursor, bookmark) => Between(since, cursor, bookmark, Top(peer))
    case Holding(cursor, bookmark, page, _) =>
      Between(since, cursor, bookmark, Top(peer)) && page == GetManifest(peer, cursor)
    case Recording(cursor, bookmark, more) =>
      Between(since, cursor, bookmark, Top(peer)) && (!more ==> AllRead(peer, cursor))
  }

  /** The bookmark is the one the pull found, or lies on the stretch it walks. */
  ghost predicate BookmarkOk(peer: Rows, since: int, before: int, now: int)
  {
    now == before || since <= now <= Top(peer)
  }

  /** The rows a pull from since does not ask for. */
  ghost function Hidden(peer: Rows, since: int): set<Meta>
  {
    set p | p in peer && peer[p].pos <= since :: Norm(peer[p])
  }

  /** The position up to which a pull over l has covered what it asked for. */
  ghost function Reach(c: Cluster, l: Link): int
    requires l.puller in c.nodes && l.peer in c.nodes
  {
    if l !in c.pulls then c.nodes[l.peer].store.head
    else if c.pulls[l].Greeted? then Since(c, l)
    else c.pulls[l].bookmark
  }

  /** A pull over l is under way or done: how far it has walked, and what that has covered. */
  ghost predicate Pulling(w: World, s: Cluster, c: Cluster, l: Link, quiet: bool)
  {
    && OnlyPulled(s, c, l, quiet)
    && var peer, since := s.nodes[l.peer].store, Since(s, l);
    && BookmarkOk(peer.rows, since, PeerSeq(s.nodes[l.puller].store, l.peer), PeerSeq(c.nodes[l.puller].store, l.peer))
    && (l in c.pulls ==> WalkOk(w.sha, peer.rows, since, c.pulls[l]))
    && CoveredUpTo(RowsOf(c, l.puller), Hidden(peer.rows, since), peer, Reach(c, l))
  }

  /** A whole pull is about to begin; if it is to be quiet, nothing conflicts. */
  ghost predicate Begins(s: Cluster, l: Link, quiet: bool)
  {
    && l.puller in s.nodes && l.peer in s.nodes && l.puller != l.peer
    && (quiet ==> NoConflicts(RowsOf(s, l.puller), RowsOf(s, l.peer)))
  }

  lemma PeerIsStill(w: World, s: Cluster, c: Cluster, l: Link, quiet: bool)
    requires Pulling(w, s, c, l, quiet)
    ensures l.puller in s.nodes && l.puller in c.nodes && l.peer in s.nodes && l.peer in c.nodes
    ensures c.nodes[l.peer] == s.nodes[l.peer] && l.puller != l.peer && Begins(s, l, quiet)
  {
    hide NoConflicts, Moved, WalkOk, BookmarkOk, CoveredUpTo, Since, Reach, Hidden;
  }

  /** The last position of the feed, by the rows and by the counter. */
  lemma TopIsHighest(st: StoreState)
    requires WellFormed(st)
    ensures 0 <= Top(st.rows) <= st.head && AllRead(st.rows, Top(st.rows))
  {
    DigestHeadIsSound(st);
    hide HighestPos, All;
  }

  lemma SinceIsOnFeed(c: Cluster, l: Link)
    requires l.puller in c.nodes && l.peer in c.nodes && WellFormed(c.nodes[l.peer].store)
    ensures Since(c, l) <= Top(RowsOf(c, l.peer)) <= c.nodes[l.peer].store.head
  {
    TopIsHighest(c.nodes[l.peer].store);
    hide Top;
  }

  /** A step that leaves rows and feed as they are, and bookmarks but the one of l, keeps how the puller has moved. */
  lemma KeepsMoved(s: Cluster, c: Cluster, c': Cluster, l: Link, quiet: bool)
    requires OnlyPulled(s, c, l, quiet) && l.puller in c'.nodes && c'.nodes == c.nodes[l.puller := c'.nodes[l.puller]]
    requires c'.hist.writes == c.hist.writes
    requires c'.nodes[l.puller].store.rows == c.nodes[l.puller].store.rows
    requires c'.nodes[l.puller].store.head == c.nodes[l.puller].store.head
    requires forall n | n != l.peer :: PeerSeq(c'.nodes[l.puller].store, n) == PeerSeq(c.nodes[l.puller].store, n)
    ensures OnlyPulled(s, c', l, quiet)
  {
    hide NoConflicts, RowsComeFrom, Rises, Untouched, Since;
  }

  lemma StartIsOnlyPulled(s: Cluster, l: Link, quiet: bool)
    requires Begins(s, l, quiet)
    ensures OnlyPulled(s, s, l, quiet)
  {
    hide NoConflicts, Since;
  }

  /* ----- Greet and Compare ----- */

  /** What a pull does not ask for is the peer's own account up to there. */
  lemma HiddenIsCovered(rows: Rows, peer: StoreState, since: int)
    requires since <= peer.head
    ensures CoveredUpTo(rows, Hidden(peer.rows, since), peer, since)
  {
    hide Norm;
  }

  lemma CoveredBelow(rows: Rows, rejected: set<Meta>, peer: StoreState, upto: int, upto': int)
    requires CoveredUpTo(rows, rejected, peer, upto) && upto' <= peer.head
    requires upto' <= upto || AllRead(peer.rows, upto)
    ensures CoveredUpTo(rows, rejected, peer, upto')
  {
    hide Covered;
  }

  /** A step that only greets leaves every tree and bookmark as they were. */
  lemma GreetMovesNothing(w: World, c: Cluster, l: Link)
    requires Enabled(c, Greet(l)) && c.nodes.Keys == w.limits.Keys
    ensures var c', peer := Do(w, c, Greet(l)), RowsOf(c, l.peer);
            && c'.nodes == c.nodes && c'.hist == c.hist
            && l in c'.pulls && c'.pulls[l].Greeted?
            && c'.pulls[l].digest == DigestOf(w.sha, peer) && c'.pulls[l].head == Top(peer)
  {
    hide DigestOf, HighestPos, All;
  }

  lemma SameSince(c: Cluster, c': Cluster, l: Link)
    requires l.puller in c.nodes && l.peer in c.nodes && c'.nodes == c.nodes
    ensures Since(c', l) == Since(c, l)
  {
  }

  lemma GreetWalks(w: World, s: Cluster, c: Cluster, l: Link, quiet: bool)
    requires Enabled(c, Greet(l)) && c.nodes.Keys == w.limits.Keys
    requires (c == s && Begins(s, l, quiet)) || Pulling(w, s, c, l, quiet)
    requires Inv(w, c)
    ensures Pulling(w, s, Do(w, c, Greet(l)), l, quiet)
  {
    hide Inv, Do, DigestOf, Top, NodeOk, OnlyPulled, CoveredUpTo, Hidden, Since, WellFormed, Begins;
    GreetMovesNothing(w, c, l);
    NodeOf(w, c, l.peer);
    FormedOf(c.nodes[l.peer]);
    SinceIsOnFeed(c, l);
    var c' := Do(w, c, Greet(l));
    if Pulling(w, s, c, l, quiet) {
      PeerIsStill(w, s, c, l, quiet);
      var peer := s.nodes[l.peer].store;
      CoveredBelow(RowsOf(c, l.puller), Hidden(peer.rows, Since(s, l)), peer, peer.head, Since(c, l));
    } else {
      StartIsOnlyPulled(s, l, quiet);
      HiddenIsCovered(RowsOf(c, l.puller), s.nodes[l.peer].store, Since(s, l));
    }
    SameSince(c, c', l);
    KeepsMoved(s, c, c', l, quiet);
  }

  /** Equal digests: there is nothing the peer holds that is not here. */
  lemma EqualTreesCover(w: World, c: Cluster, l: Link, rejected: set<Meta>)
    requires l.puller in c.nodes && l.peer in c.nodes
    requires DigestOf(w.sha, RowsOf(c, l.puller)) == DigestOf(w.sha, RowsOf(c, l.peer))
    requires GoodWorld(w) && Inv(w, c)
    ensures CoveredUpTo(RowsOf(c, l.puller), rejected, c.nodes[l.peer].store, c.nodes[l.peer].store.head)
  {
    hide Inv, DigestOf, NodeOk, NulFree, Listed;
    NodeOf(w, c, l.puller);
    NodeOf(w, c, l.peer);
    FormedOf(c.nodes[l.puller]);
    FormedOf(c.nodes[l.peer]);
    var mine, peer := RowsOf(c, l.puller), RowsOf(c, l.peer);
    ListedIsEncodable(w, c, mine);
    ListedIsEncodable(w, c, peer);
    DigestIsFaithful(w.sha, mine, peer);
    forall p | p in peer ensures Covered(mine, rejected, peer[p]) {
      AfterIsTotal(mine[p].version, peer[p].version);
    }
  }

  /** What comparing digests does, given that the peer has not moved since it was greeted. */
  lemma CompareShape(w: World, c: Cluster, l: Link)
    requires Enabled(c, Compare(l)) && l.puller in w.limits && l.peer in c.nodes && l.puller != l.peer
    requires var g, peer := c.pulls[l], RowsOf(c, l.peer); g.digest == DigestOf(w.sha, peer) && g.head == Top(peer)
    ensures var c', peer := DoCompare(w, c, l), RowsOf(c, l.peer);
            && c'.hist == c.hist
            && if DigestOf(w.sha, RowsOf(c, l.puller)) == DigestOf(w.sha, peer) then
                 c' == SetBookmark(c, l, Top(peer)).(pulls := c.pulls - {l})
               else
                 c'.nodes == c.nodes && c'.pulls == c.pulls[l := Asking(Since(c, l), Since(c, l))]
  {
    hide DigestOf, Top;
  }

  /** Setting the bookmark of l moves nothing else. */
  lemma BookmarkMovesNothing(s: Cluster, c: Cluster, l: Link, quiet: bool, bookmark: int, pulls: map<Link, Phase>)
    requires OnlyPulled(s, c, l, quiet) && l.puller in c.nodes && l.peer in c.nodes
    ensures var c' := SetBookmark(c, l, bookmark).(pulls := pulls);
            && OnlyPulled(s, c', l, quiet)
            && PeerSeq(c'.nodes[l.puller].store, l.peer) == bookmark
            && RowsOf(c', l.puller) == RowsOf(c, l.puller) && c'.nodes[l.peer].store.head == c.nodes[l.peer].store.head
  {
    hide NoConflicts, Moved, Since;
    KeepsMoved(s, c, SetBookmark(c, l, bookmark).(pulls := pulls), l, quiet);
  }

  /** A pull over l: its bookmark lies between where it began to read and the end of the feed. */
  lemma SinceStays(w: World, s: Cluster, c: Cluster, l: Link, quiet: bool)
    requires Pulling(w, s, c, l, quiet) && WellFormed(s.nodes[l.peer].store)
    ensures Since(s, l) <= Since(c, l) <= Top(RowsOf(c, l.peer)) <= c.nodes[l.peer].store.head
  {
    hide OnlyPulled, WalkOk, CoveredUpTo, Hidden, WellFormed;
    PeerIsStill(w, s, c, l, quiet);
    SinceIsOnFeed(c, l);
    SinceIsOnFeed(s, l);
    hide Top;
  }

  /** The pull begins to read. */
  lemma StartWalks(w: World, s: Cluster, c: Cluster, c': Cluster, l: Link, quiet: bool)
    requires Pulling(w, s, c, l, quiet) && l in c.pulls && c.pulls[l].Greeted? && WellFormed(s.nodes[l.peer].store)
    requires c'.nodes == c.nodes && c'.hist == c.hist && c'.pulls == c.pulls[l := Asking(Since(c, l), Since(c, l))]
    ensures Pulling(w, s, c', l, quiet)
  {
    hide OnlyPulled, CoveredUpTo, Hidden, WellFormed, Since, Top, DigestOf, Begins;
    PeerIsStill(w, s, c, l, quiet);
    SinceStays(w, s, c, l, quiet);
    KeepsMoved(s, c, c', l, quiet);
  }

  /** The pull has found the trees equal. */
  lemma EqualWalks(w: World, s: Cluster, c: Cluster, l: Link, quiet: bool)
    requires Pulling(w, s, c, l, quiet)
    requires DigestOf(w.sha, RowsOf(c, l.puller)) == DigestOf(w.sha, RowsOf(c, l.peer))
    requires WellFormed(s.nodes[l.peer].store) && GoodWorld(w) && Inv(w, c)
    ensures Pulling(w, s, SetBookmark(c, l, Top(RowsOf(s, l.peer))).(pulls := c.pulls - {l}), l, quiet)
  {
    hide Inv, GoodWorld, OnlyPulled, CoveredUpTo, Hidden, WellFormed, Since, Top, DigestOf, SetBookmark, Begins;
    PeerIsStill(w, s, c, l, quiet);
    SinceStays(w, s, c, l, quiet);
    EqualTreesCover(w, c, l, Hidden(RowsOf(s, l.peer), Since(s, l)));
    BookmarkMovesNothing(s, c, l, quiet, Top(RowsOf(s, l.peer)), c.pulls - {l});
  }

  lemma CompareWalks(w: World, s: Cluster, c: Cluster, l: Link, quiet: bool)
    requires Enabled(c, Compare(l)) && l.puller in w.limits
    requires Pulling(w, s, c, l, quiet)
    requires GoodWorld(w) && Inv(w, c)
    ensures Pulling(w, s, DoCompare(w, c, l), l, quiet)
  {
    hide Inv, GoodWorld, DoCompare, DigestOf, Top, NodeOk, OnlyPulled, CoveredUpTo, Hidden, SetBookmark, Since,
      WellFormed, Begins;
    PeerIsStill(w, s, c, l, quiet);
    NodeOf(w, c, l.peer);
    FormedOf(c.nodes[l.peer]);
    CompareShape(w, c, l);
    if DigestOf(w.sha, RowsOf(c, l.puller)) == DigestOf(w.sha, RowsOf(c, l.peer)) {
      EqualWalks(w, s, c, l, quiet);
    } else {
      StartWalks(w, s, c, DoCompare(w, c, l), l, quiet);
    }
  }

  /* ----- Ask and Record ----- */

  lemma AskWalks(w: World, s: Cluster, c: Cluster, l: Link, quiet: bool)
    requires Enabled(c, Ask(l)) && c.nodes.Keys == w.limits.Keys && Pulling(w, s, c, l, quiet)
    ensures Pulling(w, s, Do(w, c, Ask(l)), l, quiet)
  {
    hide GetManifest, OnlyPulled, CoveredUpTo, Hidden, Since, Top, Begins;
    PeerIsStill(w, s, c, l, quiet);
    KeepsMoved(s, c, Do(w, c, Ask(l)), l, quiet);
  }

  lemma RecordWalks(w: World, s: Cluster, c: Cluster, l: Link, quiet: bool)
    requires Enabled(c, Record(l)) && Pulling(w, s, c, l, quiet)
    ensures Pulling(w, s, DoRecord(c, l), l, quiet)
  {
    hide OnlyPulled, CoveredUpTo, Hidden, Since, Top, SetBookmark, Begins;
    PeerIsStill(w, s, c, l, quiet);
    var r, peer := c.pulls[l], s.nodes[l.peer].store;
    var pulls := if r.more then c.pulls[l := Asking(r.cursor, r.bookmark)] else c.pulls - {l};
    BookmarkMovesNothing(s, c, l, quiet, r.bookmark, pulls);
    if !r.more {
      CoveredBelow(RowsOf(c, l.puller), Hidden(peer.rows, Since(s, l)), peer, r.bookmark, peer.head);
    }
  }

  /* ----- Receive ----- */

  /** Without deferrals the safe position of a page is its head. */
  lemma CleanSafe(cfg: Config, n: NodeState, entries: seq<Meta>, inputs: seq<Input>)
    requires |entries| == |inputs| && IsAscending(0, entries) && entries != [] && CleanPage(cfg, n, entries, inputs)
    ensures ApplyRemote(cfg, n, entries, inputs).safe == entries[|entries| - 1].pos
    ensures RejectedRows(cfg, n, entries, inputs) == {}
  {
    hide Fold, FateOf, Apply;
    SafeIsExact(cfg, n, entries, inputs, |entries|);
    assert entries[..|entries|] == entries;
    assert NoDeferralUpTo(cfg, n, entries, inputs, |entries| - 1);
  }

  /** A page served is of rows as they stand, above the cursor, and up to its head misses none. */
  lemma ServedPage(st: StoreState, cursor: int)
    requires WellFormed(st)
    ensures var page := GetManifest(st.rows, cursor);
            && IsAscending(cursor, page.entries) && IsAscending(0, page.entries)
            && page.head == HeadOf(cursor, page.entries) && cursor <= page.head
            && (page.entries != [] ==> page.head <= Top(st.rows))
            && (!page.more || page.entries == [] ==> AllRead(st.rows, page.head))
            && (forall e | e in page.entries :: e.path in st.rows && st.rows[e.path] == e && e.pos > cursor)
  {
    TopIsHighest(st);
    ManifestIsPage(st, cursor);
    var page := GetManifest(st.rows, cursor);
    hide GetManifest, Delivered, Top;
    forall i | 0 <= i < |page.entries| ensures page.entries[i].pos > 0 && page.entries[i].pos <= Top(st.rows) {
      assert st.rows[page.entries[i].path] == page.entries[i];
    }
    forall e | e in page.entries ensures e.path in st.rows && st.rows[e.path] == e && e.pos > cursor {
      var i :| 0 <= i < |page.entries| && page.entries[i] == e;
    }
  }

  lemma CopyIsNamed(w: World, c: Cluster, l: Link, m: Meta)
    requires l in c.pulls && c.pulls[l].Holding? && l.puller in w.limits && l.puller in c.nodes
    requires IsCopy(Cfg(w, l.puller), c.nodes[l.puller], c.pulls[l].page.entries, |c.pulls[l].page.entries|, m)
    requires GoodWorld(w) && Inv(w, c)
    ensures IsConflictName(m.path)
  {
    hide Inv, NodeOk, IsConflictName, ConflictName;
    NodeOf(w, c, l.puller);
    var entries, rows := c.pulls[l].page.entries, RowsOf(c, l.puller);
    var e :| e in entries[..|entries|] && IsCopyOf(Cfg(w, l.puller), rows, m, e.path);
    OriginIsPlain(w, c, Norm(rows[e.path]));
    ConflictNameIsRecognised(rows[e.path].path, rows[e.path].version.origin, rows[e.path].version.hlc.wall);
  }

  /** Each row after a page is one the puller had, an entry of the page, or a copy with a conflict name. */
  lemma RowsAfterPage(w: World, c: Cluster, l: Link, inputs: seq<Input>, p: string)
    requires Enabled(c, Receive(l, inputs)) && l.puller in w.limits
    requires GoodWorld(w) && Inv(w, c)
    ensures var entries, rows := c.pulls[l].page.entries, RowsOf(c, l.puller);
            var a := ApplyRemote(Cfg(w, l.puller), c.nodes[l.puller], entries, inputs);
            var after, i := a.node.store.rows, LastIndex(a.batch, |a.batch|, p);
            if i < 0 then (p in after <==> p in rows) && (p in rows ==> after[p] == rows[p])
            else
              && p in after && Norm(after[p]) == Norm(a.batch[i]) && a.batch[i].path == p
              && (a.batch[i] in entries || IsConflictName(p))
  {
    hide Inv, AccAt, GoodWorld, NodeOk, Valid, ConflictName, IsConflictName, RoomForPage;
    NodeOf(w, c, l.puller);
    var cfg, n, entries := Cfg(w, l.puller), c.nodes[l.puller], c.pulls[l].page.entries;
    BatchFacts(cfg, n, entries, inputs);
    RowAfterPage(cfg, n, entries, inputs, p);
    var a := ApplyRemote(cfg, n, entries, inputs);
    assert entries[..|entries|] == entries;
    var i := LastIndex(a.batch, |a.batch|, p);
    if i >= 0 && a.batch[i] !in entries {
      CopyIsNamed(w, c, l, a.batch[i]);
    }
  }

  lemma QuietPage(start: Rows, peer: Rows, rows: Rows, entries: seq<Meta>)
    requires NoConflicts(start, peer) && RowsComeFrom(start, peer, true, rows)
    requires forall e | e in entries :: e.path in peer && peer[e.path] == e
    ensures forall i | 0 <= i < |entries| :: !InConflict(rows, entries[i])
  {
    forall i | 0 <= i < |entries| ensures !InConflict(rows, entries[i]) {
      var e := entries[i];
      assert e in entries;
      if e.path in rows {
        assert ComesFrom(start, peer, true, e.path, rows[e.path]);
      }
    }
  }

  lemma NoConflictsNoCopies(cfg: Config, rows: Rows, entries: seq<Meta>, batch: seq<Meta>)
    requires forall i | 0 <= i < |entries| :: !InConflict(rows, entries[i])
    requires forall j | 0 <= j < |batch| :: batch[j] in entries || FromConflict(cfg, rows, entries, batch[j])
    ensures forall j | 0 <= j < |batch| :: batch[j] in entries
  {
    hide InConflict, IsCopyOf;
  }

  /** A page without conflicts commits entries of the page only. */
  lemma QuietBatch(cfg: Config, n: NodeState, entries: seq<Meta>, inputs: seq<Input>, start: Rows, peer: Rows)
    requires |entries| == |inputs| && NoConflicts(start, peer) && RowsComeFrom(start, peer, true, n.store.rows)
    requires forall e | e in entries :: e.path in peer && peer[e.path] == e
    ensures forall m | m in ApplyRemote(cfg, n, entries, inputs).batch :: m in entries
  {
    hide AccAt, NoConflicts, RowsComeFrom, InConflict, FromConflict, IsCopyOf, Apply;
    QuietPage(start, peer, n.store.rows, entries);
    CopiesComeFromConflicts(cfg, n, entries, inputs, |entries|);
    NoConflictsNoCopies(cfg, n.store.rows, entries, ApplyRemote(cfg, n, entries, inputs).batch);
  }

  /**
   A page served above since leaves rows that come from the start, the peer, or a
   conflict, and touches no row hidden by since.
   */
  lemma PageComesFrom(w: World, c: Cluster, l: Link, inputs: seq<Input>, start: Rows, peer: Rows, since: int,
                      quiet: bool)
    requires Enabled(c, Receive(l, inputs)) && l.puller in w.limits
    requires forall e | e in c.pulls[l].page.entries :: e.path in peer && peer[e.path] == e && e.pos > since
    requires RowsComeFrom(start, peer, quiet, RowsOf(c, l.puller)) && Untouched(start, peer, since, RowsOf(c, l.puller))
    requires quiet ==> NoConflicts(start, peer)
    requires GoodWorld(w) && Inv(w, c)
    ensures var a := ApplyRemote(Cfg(w, l.puller), c.nodes[l.puller], c.pulls[l].page.entries, inputs);
            var after := a.node.store.rows;
            RowsComeFrom(start, peer, quiet, after) && Untouched(start, peer, since, after)
  {
    hide Inv, GoodWorld, ApplyRemote, NoConflicts, IsConflictName, RoomForPage;
    var cfg, n, entries := Cfg(w, l.puller), c.nodes[l.puller], c.pulls[l].page.entries;
    var a := ApplyRemote(cfg, n, entries, inputs);
    if quiet {
      QuietBatch(cfg, n, entries, inputs, start, peer);
    }
    forall p | p in a.node.store.rows ensures ComesFrom(start, peer, quiet, p, a.node.store.rows[p]) {
      RowsAfterPage(w, c, l, inputs, p);
    }
    forall p | p in peer && peer[p].pos <= since && !IsConflictName(p)
      ensures (p in a.node.store.rows <==> p in start) && (p in start ==> a.node.store.rows[p] == start[p])
    {
      RowsAfterPage(w, c, l, inputs, p);
    }
  }

  lemma MovedOn(start: StoreState, now: StoreState, after: StoreState, peer: Rows, since: int, quiet: bool)
    requires Rises(start.rows, now.rows) && OldFeedKept(start, now)
    requires Rises(now.rows, after.rows) && OldFeedKept(now, after)
    requires RowsComeFrom(start.rows, peer, quiet, after.rows) && Untouched(start.rows, peer, since, after.rows)
    ensures Moved(start, peer, since, quiet, after)
  {
    hide RowsComeFrom, Untouched;
    RisesIsTransitive(start.rows, now.rows, after.rows);
  }

  /** How a page moves the puller. */
  lemma PageMoves(w: World, s: Cluster, c: Cluster, l: Link, inputs: seq<Input>, quiet: bool)
    requires Enabled(c, Receive(l, inputs)) && l.puller in w.limits && OnlyPulled(s, c, l, quiet)
    requires forall e | e in c.pulls[l].page.entries ::
               e.path in RowsOf(s, l.peer) && RowsOf(s, l.peer)[e.path] == e && e.pos > Since(s, l)
    requires GoodWorld(w) && Inv(w, c)
    ensures var a := ApplyRemote(Cfg(w, l.puller), c.nodes[l.puller], c.pulls[l].page.entries, inputs);
            && Moved(s.nodes[l.puller].store, RowsOf(s, l.peer), Since(s, l), quiet, a.node.store)
            && a.node.store.peers == c.nodes[l.puller].store.peers
            && (quiet ==> forall m | m in a.batch :: m in c.pulls[l].page.entries)
  {
    hide Inv, GoodWorld, ApplyRemote, NoConflicts, Rises, OldFeedKept, RowsComeFrom, Untouched, NodeOk, RoomForPage,
      Since, BatchOk;
    NodeOf(w, c, l.puller);
    var cfg, n, entries := Cfg(w, l.puller), c.nodes[l.puller], c.pulls[l].page.entries;
    var start, peer := s.nodes[l.puller].store, RowsOf(s, l.peer);
    PageComesFrom(w, c, l, inputs, start.rows, peer, Since(s, l), quiet);
    PageRises(cfg, n, entries, inputs);
    BatchFacts(cfg, n, entries, inputs);
    if quiet {
      QuietBatch(cfg, n, entries, inputs, start.rows, peer);
    }
    MovedOn(start, n.store, ApplyRemote(cfg, n, entries, inputs).node.store, peer, Since(s, l), quiet);
  }

  lemma HeldIsOk(w: World, c: Cluster, l: Link)
    requires l in c.pulls && c.pulls[l].Holding? && l.peer in c.nodes && Inv(w, c)
    ensures DistinctPaths(c.pulls[l].page.entries)
    ensures StillPaged(c.nodes[l.peer].store, c.pulls[l].cursor, c.pulls[l].page)
  {
    hide Inv, DistinctPaths, StillPaged;
    ShapeOf(w, c);
    PhaseOf(w, c, l);
  }

  /** What a clean page covers: all up to its head. */
  lemma PageReads(w: World, c: Cluster, l: Link, inputs: seq<Input>, hidden: set<Meta>)
    requires Enabled(c, Receive(l, inputs)) && l.puller in w.limits && l.peer in c.nodes
    requires c.pulls[l].page.entries != []
    requires CleanPage(Cfg(w, l.puller), c.nodes[l.puller], c.pulls[l].page.entries, inputs)
    requires var h, peer := c.pulls[l], c.nodes[l.peer].store;
             && h.page == GetManifest(peer.rows, h.cursor) && h.cursor <= h.bookmark && WellFormed(peer)
             && CoveredUpTo(RowsOf(c, l.puller), hidden, peer, h.bookmark)
    requires Inv(w, c)
    ensures var h := c.pulls[l];
            var a := ApplyRemote(Cfg(w, l.puller), c.nodes[l.puller], h.page.entries, inputs);
            && a.safe == h.page.head
            && CoveredUpTo(a.node.store.rows, hidden, c.nodes[l.peer].store, Max(h.bookmark, a.safe))
  {
    hide Inv, ApplyRemote, GetManifest, CleanPage, CoveredUpTo, NodeOk, RoomForPage, RejectedRows, StillPaged,
      IsAscending, DistinctPaths, WellFormed, AllRead, Top, Listed;
    NodeOf(w, c, l.puller);
    HeldIsOk(w, c, l);
    hide Shape, PageOk;
    var cfg, n, h := Cfg(w, l.puller), c.nodes[l.puller], c.pulls[l];
    ServedPage(c.nodes[l.peer].store, h.cursor);
    CleanSafe(cfg, n, h.page.entries, inputs);
    PageCovers(cfg, n, h.page, inputs, c.nodes[l.peer].store, h.cursor, h.bookmark, hidden, hidden);
  }

  lemma QuietWrites(w: World, c: Cluster, l: Link, inputs: seq<Input>)
    requires Enabled(c, Receive(l, inputs)) && l.puller in w.limits
    requires var a := ApplyRemote(Cfg(w, l.puller), c.nodes[l.puller], c.pulls[l].page.entries, inputs);
             forall m | m in a.batch :: m in c.pulls[l].page.entries
    requires Inv(w, c)
    ensures var a := ApplyRemote(Cfg(w, l.puller), c.nodes[l.puller], c.pulls[l].page.entries, inputs);
            c.hist.writes == c.hist.writes + Norms(a.batch)
  {
    hide Inv, ApplyRemote, RoomForPage;
    ShapeOf(w, c);
    PhaseOf(w, c, l);
  }

  /** Only the puller of l has moved, and as a pull may. */
  lemma PageIsPulled(s: Cluster, c: Cluster, c': Cluster, l: Link, after: NodeState, quiet: bool)
    requires OnlyPulled(s, c, l, quiet) && c'.nodes == c.nodes[l.puller := after]
    requires Moved(s.nodes[l.puller].store, RowsOf(s, l.peer), Since(s, l), quiet, after.store)
    requires after.store.peers == c.nodes[l.puller].store.peers
    requires if quiet then c'.hist.writes == c.hist.writes else c.hist.writes <= c'.hist.writes
    ensures OnlyPulled(s, c', l, quiet)
  {
    hide Moved, NoConflicts, Since;
  }

  lemma WalksOn(sha: string -> string, peer: StoreState, since: int, h: Phase)
    requires WellFormed(peer) && h.Holding? && h.page.entries != [] && WalkOk(sha, peer.rows, since, h)
    ensures WalkOk(sha, peer.rows, since, Recording(h.page.head, Max(h.bookmark, h.page.head), h.page.more))
  {
    hide WellFormed, Top, GetManifest, AllRead, IsAscending;
    ServedPage(peer, h.cursor);
  }

  /** The puller of l takes a page; its pull goes on to record how far it has come. */
  lemma PageWalks(w: World, s: Cluster, c: Cluster, c': Cluster, l: Link, quiet: bool, after: NodeState, bookmark: int)
    requires Pulling(w, s, c, l, quiet) && l in c.pulls && c.pulls[l].Holding? && c.pulls[l].page.entries != []
    requires WellFormed(s.nodes[l.peer].store)
    requires Moved(s.nodes[l.puller].store, RowsOf(s, l.peer), Since(s, l), quiet, after.store)
    requires after.store.peers == c.nodes[l.puller].store.peers
    requires bookmark == Max(c.pulls[l].bookmark, c.pulls[l].page.head)
    requires CoveredUpTo(after.store.rows, Hidden(RowsOf(s, l.peer), Since(s, l)), c.nodes[l.peer].store, bookmark)
    requires c'.nodes == c.nodes[l.puller := after]
    requires var page := c.pulls[l].page; c'.pulls == c.pulls[l := Recording(page.head, bookmark, page.more)]
    requires if quiet then c'.hist.writes == c.hist.writes else c.hist.writes <= c'.hist.writes
    ensures Pulling(w, s, c', l, quiet)
  {
    hide OnlyPulled, Moved, Since, CoveredUpTo, Hidden, WellFormed, Top, WalkOk, BookmarkOk, Begins;
    PeerIsStill(w, s, c, l, quiet);
    WalksOn(w.sha, s.nodes[l.peer].store, Since(s, l), c.pulls[l]);
    PageIsPulled(s, c, c', l, after, quiet);
  }

  lemma EmptyPageWalks(w: World, s: Cluster, c: Cluster, l: Link, quiet: bool)
    requires Pulling(w, s, c, l, quiet) && l in c.pulls && c.pulls[l].Holding? && c.pulls[l].page.entries == []
    requires WellFormed(s.nodes[l.peer].store)
    ensures Pulling(w, s, c.(pulls := c.pulls - {l}), l, quiet)
  {
    PeerIsStill(w, s, c, l, quiet);
    var h, peer := c.pulls[l], s.nodes[l.peer].store;
    ServedPage(peer, h.cursor);
    hide OnlyPulled, CoveredUpTo, Hidden, Since, Top, GetManifest, WellFormed;
    CoveredBelow(RowsOf(c, l.puller), Hidden(peer.rows, Since(s, l)), peer, h.bookmark, peer.head);
    KeepsMoved(s, c, c.(pulls := c.pulls - {l}), l, quiet);
  }

  /** The page held is one the peer would serve now, and all it has asked for before is covered. */
  lemma HeldIsServed(w: World, s: Cluster, c: Cluster, l: Link, quiet: bool)
    requires Pulling(w, s, c, l, quiet) && l in c.pulls && c.pulls[l].Holding? && WellFormed(s.nodes[l.peer].store)
    ensures OnlyPulled(s, c, l, quiet)
    ensures var h, peer := c.pulls[l], c.nodes[l.peer].store;
            && h.page == GetManifest(peer.rows, h.cursor) && h.cursor <= h.bookmark
            && CoveredUpTo(RowsOf(c, l.puller), Hidden(RowsOf(s, l.peer), Since(s, l)), peer, h.bookmark)
            && forall e | e in h.page.entries ::
                 e.path in RowsOf(s, l.peer) && RowsOf(s, l.peer)[e.path] == e && e.pos > Since(s, l)
  {
    hide OnlyPulled, Since, CoveredUpTo, Hidden, WellFormed, Top, GetManifest, AllRead, IsAscending, Begins;
    PeerIsStill(w, s, c, l, quiet);
    ServedPage(s.nodes[l.peer].store, c.pulls[l].cursor);
  }

  lemma FullPageWalks(w: World, s: Cluster, c: Cluster, l: Link, inputs: seq<Input>, quiet: bool)
    requires Enabled(c, Receive(l, inputs)) && l.puller in w.limits && c.pulls[l].page.entries != []
    requires CleanPage(Cfg(w, l.puller), c.nodes[l.puller], c.pulls[l].page.entries, inputs)
    requires Pulling(w, s, c, l, quiet) && WellFormed(s.nodes[l.peer].store)
    requires GoodWorld(w) && Inv(w, c)
    ensures Pulling(w, s, DoReceive(w, c, l, inputs), l, quiet)
  {
    hide Pulling, Inv, GoodWorld, DoReceive, ApplyRemote, OnlyPulled, CleanPage, RoomForPage, WellFormed, CoveredUpTo,
      Hidden, Since, GetManifest, Moved, Norms, Begins;
    PeerIsStill(w, s, c, l, quiet);
    HeldIsServed(w, s, c, l, quiet);
    ShapeOf(w, c);
    PageMoves(w, s, c, l, inputs, quiet);
    PageReads(w, c, l, inputs, Hidden(RowsOf(s, l.peer), Since(s, l)));
    ReceiveShape(w, c, l, inputs);
    if quiet {
      QuietWrites(w, c, l, inputs);
    }
    hide Shape;
    var h := c.pulls[l];
    var a := ApplyRemote(Cfg(w, l.puller), c.nodes[l.puller], h.page.entries, inputs);
    PageWalks(w, s, c, DoReceive(w, c, l, inputs), l, quiet, a.node, Max(h.bookmark, a.safe));
  }

  lemma ReceiveWalks(w: World, s: Cluster, c: Cluster, l: Link, inputs: seq<Input>, quiet: bool)
    requires Enabled(c, Receive(l, inputs)) && l.puller in w.limits && Pulling(w, s, c, l, quiet)
    requires CleanPage(Cfg(w, l.puller), c.nodes[l.puller], c.pulls[l].page.entries, inputs)
    requires GoodWorld(w) && Inv(w, c)
    ensures Pulling(w, s, DoReceive(w, c, l, inputs), l, quiet)
  {
    hide Pulling, Inv, GoodWorld, DoReceive, CleanPage, RoomForPage, WellFormed, Begins;
    PeerIsStill(w, s, c, l, quiet);
    NodeOf(w, c, l.peer);
    FormedOf(c.nodes[l.peer]);
    hide NodeOk, Shape;
    if c.pulls[l].page.entries == [] {
      ReceiveNothing(w, c, l, inputs);
      EmptyPageWalks(w, s, c, l, quiet);
    } else {
      FullPageWalks(w, s, c, l, inputs, quiet);
    }
  }

  /* ----- whole pulls ----- */

  lemma StepPulls(w: World, s: Cluster, c: Cluster, l: Link, a: Action, quiet: bool)
    requires Enabled(c, a) && c.nodes.Keys == w.limits.Keys && OfPull(l, a) && CleanStep(w, c, a)
    requires (c == s && a == Greet(l) && Begins(s, l, quiet)) || Pulling(w, s, c, l, quiet)
    requires GoodWorld(w) && Inv(w, c)
    ensures Pulling(w, s, Do(w, c, a), l, quiet)
  {
    hide Inv, GoodWorld, Pulling, DoReceive, DoCompare, DoRecord, NoConflicts, GetManifest, RoomForPage, DigestOf,
      CleanPage;
    match a
    case Greet(_) => GreetWalks(w, s, c, l, quiet);
    case Compare(_) => CompareWalks(w, s, c, l, quiet);
    case Ask(_) => AskWalks(w, s, c, l, quiet);
    case Receive(_, inputs) => ReceiveWalks(w, s, c, l, inputs, quiet);
    case Record(_) => RecordWalks(w, s, c, l, quiet);
  }

  lemma {:induction false} RunPulls(w: World, s: Cluster, c: Cluster, l: Link, run: seq<Action>, quiet: bool)
    requires Legal(w, c, run) && CleanPull(w, c, l, run)
    requires (c == s && run != [] && run[0] == Greet(l) && Begins(s, l, quiet)) || Pulling(w, s, c, l, quiet)
    requires GoodWorld(w) && Inv(w, c)
    ensures Pulling(w, s, Run(w, c, run), l, quiet) && Inv(w, Run(w, c, run))
    decreases |run|
  {
    hide Do, Enabled, GoodWorld, Inv, Pulling, Begins, CleanStep;
    if run != [] {
      StepPulls(w, s, c, l, run[0], quiet);
      ActionKeepsInv(w, c, run[0]);
      RunPulls(w, s, Do(w, c, run[0]), l, run[1..], quiet);
    }
  }

  lemma {:induction false} PullsWriteNothing(w: World, c: Cluster, l: Link, run: seq<Action>)
    requires Legal(w, c, run) && CleanPull(w, c, l, run)
    ensures forall i | 0 <= i < |run| :: !run[i].Write?
    decreases |run|
  {
    hide Do, Enabled, CleanStep;
    if run != [] {
      PullsWriteNothing(w, Do(w, c, run[0]), l, run[1..]);
      forall i | 0 <= i < |run| ensures !run[i].Write? {
        assert i > 0 ==> run[i] == run[1..][i - 1];
      }
    }
  }
}
