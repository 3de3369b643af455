/**
 Bookmark soundness: whatever a bookmark says has been read, has been read. The
 invariant holds over all interleavings of pulls, local writes and crashes.
 */
module Bookmarks {
  import opened Hlc
  import opened Path
  import opened Entry
  import opened Store
  import opened Transport
  import opened Digest
  import opened Node
  import opened AntiEntropy
  import opened NodeFacts
  import opened PageEffects
  import opened Cluster
  import opened ClusterInvariant

  /* ----- one page: what the safe position accounts for ----- */

  lemma JudgeBooks(cfg: Config, rows: Rows, acc: Acc, remote: Meta, input: Input)
    ensures var j := Judge(cfg, rows, acc, remote, input);
            && j.acc.deferred == (acc.deferred || j.fate.Deferred?)
            && j.acc.safe == if j.acc.deferred then acc.safe else Max(acc.safe, remote.pos)
  {
    hide Valid, ConflictName, Merge, EnsureBlob, Resolution.Resolve;
  }

  /** None of the first i + 1 entries of the page is deferred. */
  predicate NoDeferralUpTo(cfg: Config, n: NodeState, entries: seq<Meta>, inputs: seq<Input>, i: nat)
    requires i < |entries| == |inputs|
  {
    forall j | 0 <= j <= i :: !FateOf(cfg, n, entries, inputs, j).Deferred?
  }

  /**
   The safe position of a page in feed order covers exactly the entries before
   its first deferral, and never exceeds the last entry's position.
   */
  lemma {:induction false} SafeIsExact(cfg: Config, n: NodeState, entries: seq<Meta>, inputs: seq<Input>, k: nat)
    requires k <= |entries| == |inputs| && IsAscending(0, entries)
    ensures var acc := AccAt(cfg, n, entries, inputs, k);
            && 0 <= acc.safe <= HeadOf(0, entries[..k])
            && (acc.deferred <==> exists j | 0 <= j < k :: FateOf(cfg, n, entries, inputs, j).Deferred?)
            && (forall i | 0 <= i < k :: entries[i].pos <= acc.safe <==> NoDeferralUpTo(cfg, n, entries, inputs, i))
  {
    hide Judge, FateOf;
    if k > 0 {
      SafeIsExact(cfg, n, entries, inputs, k - 1);
      var acc, acc' := AccAt(cfg, n, entries, inputs, k - 1), AccAt(cfg, n, entries, inputs, k);
      JudgeBooks(cfg, n.store.rows, acc, entries[k - 1], inputs[k - 1]);
      FateIs(cfg, n, entries, inputs, k - 1);
      assert HeadOf(0, entries[..k]) == entries[k - 1].pos;
      assert HeadOf(0, entries[..k - 1]) < entries[k - 1].pos;
      assert forall i | 0 <= i < k - 1 :: entries[i].pos <= HeadOf(0, entries[..k - 1]);
    }
  }

  lemma FateIs(cfg: Config, n: NodeState, entries: seq<Meta>, inputs: seq<Input>, i: nat)
    requires i < |entries| == |inputs|
    ensures FateOf(cfg, n, entries, inputs, i)
         == Judge(cfg, n.store.rows, AccAt(cfg, n, entries, inputs, i), entries[i], inputs[i]).fate
  {
  }

  /* ----- the invariant ----- */

  /** The node is at or past write r, or has refused it. */
  ghost predicate Covered(rows: Rows, rejected: set<Meta>, r: Meta)
  {
    (r.path in rows && AtLeast(rows[r.path].version, r.version)) || Norm(r) in rejected
  }

  ghost predicate CoveredUpTo(rows: Rows, rejected: set<Meta>, peer: StoreState, upto: int)
  {
    && upto <= peer.head
    && forall p | p in peer.rows && peer.rows[p].pos <= upto :: Covered(rows, rejected, peer.rows[p])
  }

  ghost predicate LinkCovered(c: Cluster, b: string, a: string, upto: int)
  {
    a in c.nodes && b in c.nodes &&
    CoveredUpTo(c.nodes[b].store.rows, Of(c.hist.rejected, b), c.nodes[a].store, upto)
  }

  /** The position up to which a running pull may claim to have read. */
  predicate Claims(ph: Phase)
  {
    !ph.Greeted?
  }

  ghost predicate PullCovered(c: Cluster, l: Link)
  {
    && l in c.pulls && l.puller in c.nodes && l.peer in c.nodes
    && var ph := c.pulls[l];
    && (Claims(ph) ==> LinkCovered(c, l.puller, l.peer, ph.bookmark))
    && (ph.Holding? ==> ph.cursor <= ph.bookmark)
  }

  /** Every durable bookmark and every bookmark of a running pull is sound. */
  ghost predicate BookmarksSound(c: Cluster)
  {
    && (forall a, b | a in c.nodes && b in c.nodes :: LinkCovered(c, b, a, PeerSeq(c.nodes[b].store, a)))
    && (forall l | l in c.pulls :: PullCovered(c, l))
  }

  /** No collection, and no page is asked for after one that deferred an entry. */
  predicate Careful(c: Cluster, a: Action)
    requires Enabled(c, a)
  {
    && !a.Sweep?
    && (a.Ask? ==> c.pulls[a.link].cursor <= c.pulls[a.link].bookmark)
  }

  ghost predicate CarefulRun(w: World, c: Cluster, run: seq<Action>)
    requires Legal(w, c, run)
    decreases |run|
  {
    run == [] || (Careful(c, run[0]) && CarefulRun(w, Do(w, c, run[0]), run[1..]))
  }

  /* ----- progress of one node keeps every claim ----- */

  lemma CoverKept(rows: Rows, rows': Rows, rejected: set<Meta>, rejected': set<Meta>, peer: StoreState,
                  peer': StoreState, upto: int)
    requires CoveredUpTo(rows, rejected, peer, upto)
    requires Rises(rows, rows') && rejected <= rejected' && OldFeedKept(peer, peer')
    ensures CoveredUpTo(rows', rejected', peer', upto)
  {
    forall p | p in peer'.rows && peer'.rows[p].pos <= upto ensures Covered(rows', rejected', peer'.rows[p]) {
      var r := peer.rows[p];
      assert Covered(rows, rejected, r);
      if r.path in rows && AtLeast(rows[r.path].version, r.version) {
        AfterIsTotal(rows'[r.path].version, rows[r.path].version);
        AtLeastIsTransitive(rows'[r.path].version, rows[r.path].version, r.version);
      }
    }
  }

  /** Every node's rows rose, kept their old feed, and refused no less. */
  ghost predicate Progress(c: Cluster, c': Cluster)
  {
    && c'.nodes.Keys == c.nodes.Keys
    && forall n | n in c.nodes ::
         && Rises(c.nodes[n].store.rows, c'.nodes[n].store.rows)
         && OldFeedKept(c.nodes[n].store, c'.nodes[n].store)
         && Of(c.hist.rejected, n) <= Of(c'.hist.rejected, n)
  }

  lemma LinkKept(c: Cluster, c': Cluster, b: string, a: string, upto: int)
    requires Progress(c, c') && a in c.nodes && b in c.nodes && LinkCovered(c, b, a, upto)
    ensures LinkCovered(c', b, a, upto)
  {
    hide Rises, OldFeedKept, CoveredUpTo;
    CoverKept(c.nodes[b].store.rows, c'.nodes[b].store.rows, Of(c.hist.rejected, b), Of(c'.hist.rejected, b),
              c.nodes[a].store, c'.nodes[a].store, upto);
  }

  /** A step that makes progress, moves bookmarks only to sound positions and starts only sound pulls. */
  lemma ProgressKeepsSound(c: Cluster, c': Cluster)
    requires BookmarksSound(c) && Progress(c, c')
    requires forall a, b | a in c.nodes && b in c.nodes ::
               PeerSeq(c'.nodes[b].store, a) == PeerSeq(c.nodes[b].store, a)
               || LinkCovered(c', b, a, PeerSeq(c'.nodes[b].store, a))
    requires forall l | l in c'.pulls :: (l in c.pulls && c'.pulls[l] == c.pulls[l]) || PullCovered(c', l)
    ensures BookmarksSound(c')
  {
    hide Progress, LinkCovered;
    assert c'.nodes.Keys == c.nodes.Keys by {
      KeysOf(c, c');
    }
    forall a, b | a in c'.nodes && b in c'.nodes ensures LinkCovered(c', b, a, PeerSeq(c'.nodes[b].store, a)) {
      if PeerSeq(c'.nodes[b].store, a) == PeerSeq(c.nodes[b].store, a) {
        LinkKept(c, c', b, a, PeerSeq(c.nodes[b].store, a));
      }
    }
    forall l | l in c'.pulls ensures PullCovered(c', l) {
      if l in c.pulls && c'.pulls[l] == c.pulls[l] {
        assert PullCovered(c, l);
        if Claims(c.pulls[l]) {
          LinkKept(c, c', l.puller, l.peer, c.pulls[l].bookmark);
        }
      }
    }
  }

  lemma KeysOf(c: Cluster, c': Cluster)
    requires Progress(c, c')
    ensures c'.nodes.Keys == c.nodes.Keys
  {
  }

  lemma StandsStill(rows: Rows, st: StoreState)
    ensures Rises(rows, rows) && OldFeedKept(st, st)
  {
  }

  /** Only node n moved. */
  lemma OneNodeProgress(c: Cluster, c': Cluster, n: string)
    requires n in c.nodes && n in c'.nodes && c'.nodes == c.nodes[n := c'.nodes[n]]
    requires Rises(c.nodes[n].store.rows, c'.nodes[n].store.rows) && OldFeedKept(c.nodes[n].store, c'.nodes[n].store)
    requires Of(c.hist.rejected, n) <= Of(c'.hist.rejected, n)
    requires forall m | m in c.nodes && m != n :: Of(c'.hist.rejected, m) == Of(c.hist.rejected, m)
    ensures Progress(c, c')
  {
    hide Rises, OldFeedKept;
    forall m | m in c.nodes
      ensures Rises(c.nodes[m].store.rows, c'.nodes[m].store.rows)
      ensures OldFeedKept(c.nodes[m].store, c'.nodes[m].store)
    {
      StandsStill(c.nodes[m].store.rows, c.nodes[m].store);
    }
  }

  /** One node's rows rise, bookmarks stay, and the pulls that change are sound. */
  lemma OneNodeKeepsSound(c: Cluster, c': Cluster, n: string)
    requires BookmarksSound(c)
    requires n in c.nodes && n in c'.nodes && c'.nodes == c.nodes[n := c'.nodes[n]]
    requires Rises(c.nodes[n].store.rows, c'.nodes[n].store.rows) && OldFeedKept(c.nodes[n].store, c'.nodes[n].store)
    requires c'.nodes[n].store.peers == c.nodes[n].store.peers
    requires Of(c.hist.rejected, n) <= Of(c'.hist.rejected, n)
    requires forall m | m in c.nodes && m != n :: Of(c'.hist.rejected, m) == Of(c.hist.rejected, m)
    requires forall l | l in c'.pulls :: (l in c.pulls && c'.pulls[l] == c.pulls[l]) || PullCovered(c', l)
    ensures BookmarksSound(c')
  {
    hide Rises, OldFeedKept, LinkCovered, PullCovered;
    OneNodeProgress(c, c', n);
    hide Progress, BookmarksSound;
    ProgressKeepsSound(c, c');
  }

  /** Rows, feed and refusals are the same, so the same claims hold. */
  lemma LinkSame(c: Cluster, c': Cluster, b: string, a: string, upto: int)
    requires SameRows(c, c') && a in c.nodes && b in c.nodes
    ensures LinkCovered(c', b, a, upto) <==> LinkCovered(c, b, a, upto)
  {
    hide Covered;
  }

  ghost predicate SameRows(c: Cluster, c': Cluster)
  {
    && c'.nodes.Keys == c.nodes.Keys && c'.hist.rejected == c.hist.rejected
    && forall n | n in c.nodes ::
         c'.nodes[n].store.rows == c.nodes[n].store.rows && c'.nodes[n].store.head == c.nodes[n].store.head
  }

  /** A step that touches no rows, sets no bookmark but to a sound position, and changes only pull l. */
  lemma QuietKeepsSound(c: Cluster, c': Cluster, l: Link)
    requires BookmarksSound(c) && SameRows(c, c') && l.puller in c.nodes && l.peer in c.nodes
    requires forall a, b | a in c.nodes && b in c.nodes ::
               PeerSeq(c'.nodes[b].store, a) == PeerSeq(c.nodes[b].store, a)
               || (b == l.puller && a == l.peer && LinkCovered(c, b, a, PeerSeq(c'.nodes[b].store, a)))
    requires forall k | k in c'.pulls && k != l :: k in c.pulls && c'.pulls[k] == c.pulls[k]
    requires l in c'.pulls ==>
               && (Claims(c'.pulls[l]) ==> LinkCovered(c, l.puller, l.peer, c'.pulls[l].bookmark))
               && (c'.pulls[l].Holding? ==> c'.pulls[l].cursor <= c'.pulls[l].bookmark)
    ensures BookmarksSound(c')
  {
    hide LinkCovered;
    forall a, b | a in c'.nodes && b in c'.nodes ensures LinkCovered(c', b, a, PeerSeq(c'.nodes[b].store, a)) {
      LinkSame(c, c', b, a, PeerSeq(c'.nodes[b].store, a));
    }
    forall k | k in c'.pulls ensures PullCovered(c', k) {
      if k != l {
        assert PullCovered(c, k);
      }
      if Claims(c'.pulls[k]) {
        LinkSame(c, c', k.puller, k.peer, c'.pulls[k].bookmark);
      }
    }
  }

  predicate Sensible(ph: Phase)
  {
    ph.Holding? ==> ph.cursor <= ph.bookmark
  }

  /** Only pull l changes. */
  lemma PullKeepsSound(c: Cluster, c': Cluster, l: Link)
    requires BookmarksSound(c) && l.puller in c.nodes && l.peer in c.nodes
    requires c'.nodes == c.nodes && c'.hist == c.hist
    requires forall k | k in c'.pulls && k != l :: k in c.pulls && c'.pulls[k] == c.pulls[k]
    requires l in c'.pulls ==> Sensible(c'.pulls[l])
    requires l in c'.pulls && Claims(c'.pulls[l]) ==> LinkCovered(c, l.puller, l.peer, c'.pulls[l].bookmark)
    ensures BookmarksSound(c')
  {
    QuietKeepsSound(c, c', l);
  }

  /** Only pull l and its durable bookmark change. */
  lemma SetBookmarkKeepsSound(c: Cluster, l: Link, bookmark: int, pulls: map<Link, Phase>)
    requires BookmarksSound(c) && l.puller in c.nodes && l.peer in c.nodes
    requires LinkCovered(c, l.puller, l.peer, bookmark)
    requires forall k | k in pulls && k != l :: k in c.pulls && pulls[k] == c.pulls[k]
    requires l in pulls ==> pulls[l].Asking? && pulls[l].bookmark == bookmark
    ensures BookmarksSound(SetBookmark(c, l, bookmark).(pulls := pulls))
  {
    hide LinkCovered, BookmarksSound;
    QuietKeepsSound(c, SetBookmark(c, l, bookmark).(pulls := pulls), l);
  }

  /* ----- the actions ----- */

  lemma WriteKeepsSound(w: World, c: Cluster, n: string, op: LocalOp, at: int64)
    requires Inv(w, c) && Enabled(c, Write(n, op, at)) && n in w.limits && BookmarksSound(c)
    ensures BookmarksSound(DoWrite(w, c, n, op, at))
  {
    hide RunLocal, Inv, NodeOk, Rises, OldFeedKept, PullCovered, LinkCovered, SanitizePath, Norms, DoWrite;
    ShapeOf(w, c);
    NodeOf(w, c, n);
    WriteShape(w, c, n, op, at);
    FormedOf(c.nodes[n]);
    WriteLands(Cfg(w, n), c.nodes[n], op, at);
    LocalWriteRises(Cfg(w, n), c.nodes[n], op, at);
    hide BookmarksSound, Shape;
    OneNodeKeepsSound(c, DoWrite(w, c, n, op, at), n);
  }

  lemma ReceiveRejected(w: World, c: Cluster, l: Link, inputs: seq<Input>)
    requires Shape(w, c) && Enabled(c, Receive(l, inputs)) && c.pulls[l].page.entries != []
    ensures var h, cfg, n, c' := c.pulls[l], Cfg(w, l.puller), c.nodes[l.puller], DoReceive(w, c, l, inputs);
            && Of(c'.hist.rejected, l.puller)
            == Of(c.hist.rejected, l.puller) + RejectedRows(cfg, n, h.page.entries, inputs)
            && (forall m | m in c.nodes && m != l.puller :: Of(c'.hist.rejected, m) == Of(c.hist.rejected, m))
  {
    hide ApplyRemote, StoredBy, AbsorbedPaths, RejectedRows, Norms, RoomForPage;
  }

  /** An entry at or below the safe position is stored, skipped or rejected, hence covered. */
  lemma AccountedIsCovered(cfg: Config, n: NodeState, entries: seq<Meta>, inputs: seq<Input>, e: Meta,
                           rejected: set<Meta>)
    requires PageReady(cfg, n, entries, inputs) && DistinctPaths(entries) && IsAscending(0, entries)
    requires e in entries && e.pos <= ApplyRemote(cfg, n, entries, inputs).safe
    requires RejectedRows(cfg, n, entries, inputs) <= rejected
    ensures Covered(ApplyRemote(cfg, n, entries, inputs).node.store.rows, rejected, e)
  {
    hide Fold, FateOf, Apply;
    var i :| 0 <= i < |entries| && entries[i] == e;
    SafeIsExact(cfg, n, entries, inputs, |entries|);
    assert NoDeferralUpTo(cfg, n, entries, inputs, i);
    hide AccAt;
    if FateOf(cfg, n, entries, inputs, i).Rejected? {
      assert Norm(entries[i]) in RejectedRows(cfg, n, entries, inputs);
    } else {
      AbsorbedIsReached(cfg, n, entries, inputs, i);
    }
  }

  /** The bookmark a page leaves is sound. */
  lemma PageCovers(cfg: Config, n: NodeState, page: Page, inputs: seq<Input>, peer: StoreState, since: int,
                   bookmark: int, rejected: set<Meta>, rejected': set<Meta>)
    requires PageReady(cfg, n, page.entries, inputs) && DistinctPaths(page.entries)
    requires IsAscending(since, page.entries) && IsAscending(0, page.entries) && page.entries != []
    requires page.head == HeadOf(since, page.entries) && StillPaged(peer, since, page)
    requires since <= bookmark && CoveredUpTo(n.store.rows, rejected, peer, bookmark)
    requires rejected' == rejected + RejectedRows(cfg, n, page.entries, inputs)
    ensures var a := ApplyRemote(cfg, n, page.entries, inputs);
            CoveredUpTo(a.node.store.rows, rejected', peer, Max(bookmark, a.safe))
  {
    hide ApplyRemote, RejectedRows, Rises, OldFeedKept, NodeOk, RoomForPage;
    var a := ApplyRemote(cfg, n, page.entries, inputs);
    PageRises(cfg, n, page.entries, inputs);
    StandsStill(peer.rows, peer);
    CoverKept(n.store.rows, a.node.store.rows, rejected, rejected', peer, peer, bookmark);
    SafeBound(cfg, n, page.entries, inputs);
    forall p | p in peer.rows && bookmark < peer.rows[p].pos <= a.safe
      ensures Covered(a.node.store.rows, rejected', peer.rows[p])
    {
      assert peer.rows[p] in page.entries;
      AccountedIsCovered(cfg, n, page.entries, inputs, peer.rows[p], rejected');
    }
  }

  lemma SafeBound(cfg: Config, n: NodeState, entries: seq<Meta>, inputs: seq<Input>)
    requires |entries| == |inputs| && IsAscending(0, entries) && entries != []
    ensures 0 <= ApplyRemote(cfg, n, entries, inputs).safe <= entries[|entries| - 1].pos
  {
    hide Fold, FateOf, Apply;
    SafeIsExact(cfg, n, entries, inputs, |entries|);
    assert entries[..|entries|] == entries;
  }

  /** The puller moves by a page, and its pull goes on to record a sound bookmark. */
  lemma PageMoveKeepsSound(c: Cluster, c': Cluster, l: Link, after: NodeState, ph: Phase)
    requires BookmarksSound(c) && l.puller in c.nodes && l.peer in c.nodes && l.puller != l.peer && ph.Recording?
    requires c'.nodes == c.nodes[l.puller := after] && c'.pulls == c.pulls[l := ph]
    requires Rises(c.nodes[l.puller].store.rows, after.store.rows) && OldFeedKept(c.nodes[l.puller].store, after.store)
    requires after.store.peers == c.nodes[l.puller].store.peers
    requires Of(c.hist.rejected, l.puller) <= Of(c'.hist.rejected, l.puller)
    requires forall m | m in c.nodes && m != l.puller :: Of(c'.hist.rejected, m) == Of(c.hist.rejected, m)
    requires CoveredUpTo(after.store.rows, Of(c'.hist.rejected, l.puller), c.nodes[l.peer].store, ph.bookmark)
    ensures BookmarksSound(c')
  {
    hide Rises, OldFeedKept, CoveredUpTo, BookmarksSound;
    assert PullCovered(c', l);
    hide PullCovered;
    OneNodeKeepsSound(c, c', l.puller);
  }

  lemma ReceiveKeepsSound(w: World, c: Cluster, l: Link, inputs: seq<Input>)
    requires Inv(w, c) && Enabled(c, Receive(l, inputs)) && l.puller in w.limits && BookmarksSound(c)
    ensures BookmarksSound(DoReceive(w, c, l, inputs))
  {
    hide DoReceive, ApplyRemote, Inv, NodeOk, Rises, OldFeedKept, RoomForPage, Norms, RejectedRows, CoveredUpTo,
      LinkCovered, PullCovered, BookmarksSound, Shape;
    ShapeOf(w, c);
    LinkOf(w, c, l);
    var c' := DoReceive(w, c, l, inputs);
    if c.pulls[l].page.entries == [] {
      ReceiveNothing(w, c, l, inputs);
      PullKeepsSound(c, c', l);
    } else {
      ReceiveFacts(w, c, l, inputs);
      ReceiveShape(w, c, l, inputs);
      ReceiveRejected(w, c, l, inputs);
      var h := c.pulls[l];
      var a := ApplyRemote(Cfg(w, l.puller), c.nodes[l.puller], h.page.entries, inputs);
      PageMoveKeepsSound(c, c', l, a.node, Recording(h.page.head, Max(h.bookmark, a.safe), h.page.more));
    }
  }

  /** The page a pull holds is honest. */
  lemma HeldPage(w: World, c: Cluster, l: Link)
    requires Inv(w, c) && BookmarksSound(c) && l in c.pulls && c.pulls[l].Holding?
    requires l.puller in c.nodes && l.peer in c.nodes
    ensures var h := c.pulls[l];
            && DistinctPaths(h.page.entries) && IsAscending(h.cursor, h.page.entries) && IsAscending(0, h.page.entries)
            && h.page.head == HeadOf(h.cursor, h.page.entries)
            && StillPaged(c.nodes[l.peer].store, h.cursor, h.page)
            && h.cursor <= h.bookmark && LinkCovered(c, l.puller, l.peer, h.bookmark)
  {
    hide Inv, LinkCovered, StillPaged;
    ShapeOf(w, c);
    PhaseOf(w, c, l);
    assert PullCovered(c, l);
  }

  /** A page moves the node up and covers what its bookmark will claim. */
  ghost predicate PageSound(cfg: Config, n: NodeState, h: Phase, inputs: seq<Input>, peer: StoreState,
                            rejected: set<Meta>)
  {
    && h.Holding? && |inputs| == |h.page.entries|
    && var a := ApplyRemote(cfg, n, h.page.entries, inputs);
    && Rises(n.store.rows, a.node.store.rows) && OldFeedKept(n.store, a.node.store)
    && a.node.store.peers == n.store.peers
    && CoveredUpTo(a.node.store.rows, rejected + RejectedRows(cfg, n, h.page.entries, inputs), peer,
                   Max(h.bookmark, a.safe))
  }

  lemma ReceiveFacts(w: World, c: Cluster, l: Link, inputs: seq<Input>)
    requires Enabled(c, Receive(l, inputs)) && l.puller in w.limits && l.peer in c.nodes
    requires c.pulls[l].page.entries != []
    requires Inv(w, c) && BookmarksSound(c)
    ensures PageSound(Cfg(w, l.puller), c.nodes[l.puller], c.pulls[l], inputs, c.nodes[l.peer].store,
                      Of(c.hist.rejected, l.puller))
  {
    hide ApplyRemote, Inv, NodeOk, RoomForPage, RejectedRows, CoveredUpTo, StillPaged, BookmarksSound, DistinctPaths,
      IsAscending, Rises, OldFeedKept;
    NodeOf(w, c, l.puller);
    HeldPage(w, c, l);
    var cfg, n, h := Cfg(w, l.puller), c.nodes[l.puller], c.pulls[l];
    PageRises(cfg, n, h.page.entries, inputs);
    BatchFacts(cfg, n, h.page.entries, inputs);
    PageCovers(cfg, n, h.page, inputs, c.nodes[l.peer].store, h.cursor, h.bookmark, Of(c.hist.rejected, l.puller),
               Of(c.hist.rejected, l.puller) + RejectedRows(cfg, n, h.page.entries, inputs));
  }

  lemma CompareKeepsSound(w: World, c: Cluster, l: Link)
    requires GoodWorld(w) && Inv(w, c) && Enabled(c, Compare(l)) && l.puller in w.limits && BookmarksSound(c)
    ensures BookmarksSound(DoCompare(w, c, l))
  {
    hide Inv, LinkCovered, GoodWorld, DigestOf, BookmarksSound;
    ShapeOf(w, c);
    LinkOf(w, c, l);
    var g := c.pulls[l];
    var begin := BeginPull(Cfg(w, l.puller), c.nodes[l.puller], l.peer, g.digest, g.head);
    hide Shape;
    if begin.done {
      EqualDigestsCover(w, c, l);
      SetBookmarkKeepsSound(c, l, begin.bookmark, c.pulls - {l});
    } else {
      StartIsCovered(w, c, l);
      PullKeepsSound(c, DoCompare(w, c, l), l);
    }
  }

  /** Equal digests mean the peer's rows up to its head are all here. */
  lemma EqualDigestsCover(w: World, c: Cluster, l: Link)
    requires GoodWorld(w) && Inv(w, c) && l in c.pulls && c.pulls[l].Greeted?
    requires l.puller in c.nodes && l.peer in c.nodes
    requires DigestOf(w.sha, c.nodes[l.puller].store.rows) == c.pulls[l].digest
    ensures LinkCovered(c, l.puller, l.peer, c.pulls[l].head)
  {
    hide Inv, DigestOf, NodeOk, NulFree;
    ShapeOf(w, c);
    NodeOf(w, c, l.puller);
    NodeOf(w, c, l.peer);
    PhaseOf(w, c, l);
    var g, rows, peer := c.pulls[l], c.nodes[l.puller].store.rows, c.nodes[l.peer].store;
    ListedIsEncodable(w, c, rows) by {
      FormedOf(c.nodes[l.puller]);
    }
    ListedIsEncodable(w, c, g.tree);
    DigestIsFaithful(w.sha, g.tree, rows);
    PositivePos(c.nodes[l.peer]);
    forall p | p in peer.rows && peer.rows[p].pos <= g.head
      ensures Covered(rows, Of(c.hist.rejected, l.puller), peer.rows[p])
    {
      AfterIsTotal(rows[p].version, peer.rows[p].version);
    }
  }

  lemma PositivePos(n: NodeState)
    requires NodeOk(n)
    ensures WellFiled(n.store.rows) && forall p | p in n.store.rows :: n.store.rows[p].pos > 0
    ensures n.store.head >= 0
  {
  }

  lemma ListedIsEncodable(w: World, c: Cluster, rows: Rows)
    requires Inv(w, c) && Listed(c.hist.writes, rows) && WellFiled(rows)
    ensures Encodable(rows)
  {
    forall p | p in rows ensures NulFree(rows[p]) {
      assert WriteOk(c.nodes, Norm(rows[p]));
    }
  }

  lemma StartIsCovered(w: World, c: Cluster, l: Link)
    requires Inv(w, c) && l.puller in c.nodes && l.peer in c.nodes && BookmarksSound(c)
    ensures LinkCovered(c, l.puller, l.peer, PeerSeq(c.nodes[l.puller].store, l.peer))
    ensures LinkCovered(c, l.puller, l.peer, 0)
  {
    hide Inv, NodeOk;
    NodeOf(w, c, l.peer);
    PositivePos(c.nodes[l.peer]);
  }

  lemma PullCoveredOf(c: Cluster, l: Link)
    requires BookmarksSound(c) && l in c.pulls
    ensures PullCovered(c, l)
  {
    hide PullCovered;
  }

  lemma RecordKeepsSound(w: World, c: Cluster, l: Link)
    requires Inv(w, c) && Enabled(c, Record(l)) && BookmarksSound(c)
    ensures BookmarksSound(DoRecord(c, l))
  {
    hide Inv, LinkCovered, BookmarksSound;
    ShapeOf(w, c);
    LinkOf(w, c, l);
    hide Shape;
    PullCoveredOf(c, l);
    var r := c.pulls[l];
    SetBookmarkKeepsSound(c, l, r.bookmark,
                          if r.more then c.pulls[l := Asking(r.cursor, r.bookmark)] else c.pulls - {l});
  }

  lemma ActionKeepsSound(w: World, c: Cluster, a: Action)
    requires GoodWorld(w) && Inv(w, c) && Enabled(c, a) && c.nodes.Keys == w.limits.Keys
    requires BookmarksSound(c) && Careful(c, a)
    ensures BookmarksSound(Do(w, c, a))
  {
    hide Inv, GoodWorld, DoWrite, DoReceive, DoCompare, DoRecord, RoomForPage, GetManifest, LinkCovered, DigestOf;
    match a
    case Write(n, op, at) => WriteKeepsSound(w, c, n, op, at);
    case Receive(l, inputs) => ReceiveKeepsSound(w, c, l, inputs);
    case Compare(l) => CompareKeepsSound(w, c, l);
    case Record(l) => RecordKeepsSound(w, c, l);
    case Ask(l) =>
      assert PullCovered(c, l);
      PullsOnly(w, c, a);
    case Greet(l) => PullsOnly(w, c, a);
    case Abort(l) => PullsOnly(w, c, a);
  }

  lemma PullsOnly(w: World, c: Cluster, a: Action)
    requires Enabled(c, a) && c.nodes.Keys == w.limits.Keys && BookmarksSound(c) && Careful(c, a)
    requires a.Ask? || a.Greet? || a.Abort?
    ensures BookmarksSound(Do(w, c, a))
  {
    hide GetManifest, LinkCovered, DigestOf;
    var l := a.link;
    if l in c.pulls {
      assert PullCovered(c, l);
    }
    hide BookmarksSound;
    PullKeepsSound(c, Do(w, c, a), l);
  }

  lemma {:induction false} RunKeepsSound(w: World, c: Cluster, run: seq<Action>)
    requires GoodWorld(w) && Inv(w, c) && Legal(w, c, run) && CarefulRun(w, c, run) && BookmarksSound(c)
    ensures BookmarksSound(Run(w, c, run))
    decreases |run|
  {
    hide Do, Inv, Enabled, GoodWorld, BookmarksSound, Careful;
    if run != [] {
      ActionKeepsInv(w, c, run[0]);
      ActionKeepsSound(w, c, run[0]);
      RunKeepsSound(w, Do(w, c, run[0]), run[1..]);
    }
  }

  lemma InitIsSound(w: World, c: Cluster)
    requires Init(w, c)
    ensures BookmarksSound(c)
  {
  }

  /**
   Bookmark soundness. On every run without collection on which a page that
   deferred an entry is the last of its pull: every row a peer holds at or below
   our bookmark is matched or passed by our own row for that path, or was
   refused. This covers crashes between any two steps, the equal-digest shortcut
   and restarts of the feed.
   */
  lemma BookmarkSoundness(w: World, c0: Cluster, run: seq<Action>, b: string, a: string, p: string)
    requires GoodWorld(w) && Init(w, c0) && Legal(w, c0, run) && CarefulRun(w, c0, run)
    requires var c := Run(w, c0, run);
             && a in c.nodes && b in c.nodes && p in c.nodes[a].store.rows
             && c.nodes[a].store.rows[p].pos <= PeerSeq(c.nodes[b].store, a)
    ensures var c := Run(w, c0, run);
            Covered(c.nodes[b].store.rows, Of(c.hist.rejected, b), c.nodes[a].store.rows[p])
  {
    hide Legal, Run, CarefulRun, Init, GoodWorld, Covered;
    InitIsInv(w, c0);
    InitIsSound(w, c0);
    RunKeepsSound(w, c0, run);
    var c := Run(w, c0, run);
    assert LinkCovered(c, b, a, PeerSeq(c.nodes[b].store, a));
  }
}
