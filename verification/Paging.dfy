/**
 Walking a peer's feed page by page while the peer keeps committing: every row
 the walk claims to have passed was delivered in some page, as it stands when the
 walk ends; and on a feed that stands still the walk ends with the whole feed.
 */
module Paging {
  import opened Hlc
  import opened Path
  import opened Entry
  import opened Store
  import opened Transport
  import opened Node
  import opened AntiEntropy

  /* ----- a changing feed ----- */

  /** Whatever a node does, its feed only grows above the head it had. */
  lemma OpKeepsFeed(cfg: Config, n: NodeState, op: NodeOp)
    requires WellShaped(op) && WellFormed(n.store)
    ensures var n' := RunOp(cfg, n, op); WellFormed(n'.store) && OldFeedKept(n.store, n'.store)
  {
    hide SanitizePath, SanitizeMode, Tick, Fold, WellFormed, OldFeedKept, Apply, AccAt;
    match op
    case LocalWrite(op, at) =>
      StandsStill(n.store, n.store.blobs);
      LocalKeepsFeed(cfg, n, op, at);
    case OtherPage(entries, inputs) =>
      var acc := AccAt(cfg, n, entries, inputs, |entries|);
      StandsStill(n.store, acc.blobs);
      ApplyKeepsFeed(n.store.(blobs := acc.blobs), acc.batch);
      FeedKeptTrans(n.store, n.store.(blobs := acc.blobs), RunOp(cfg, n, OtherPage(entries, inputs)).store);
    case Janitor(horizon) =>
      SweepKeepsFeed(n, horizon);
    case OtherRecord(peer, seen) =>
      BookmarkKeepsFeed(n, peer, seen);
  }

  lemma BookmarkKeepsFeed(n: NodeState, peer: string, seen: int)
    requires WellFormed(n.store)
    ensures var n' := WithBookmark(n, peer, seen); WellFormed(n'.store) && OldFeedKept(n.store, n'.store)
  {
  }

  lemma LocalKeepsFeed(cfg: Config, n: NodeState, op: LocalOp, at: int64)
    requires WellFormed(n.store)
    ensures var n' := RunLocal(cfg, n, op, at).node; WellFormed(n'.store) && OldFeedKept(n.store, n'.store)
  {
    hide SanitizePath, SanitizeMode, Tick, WellFormed, OldFeedKept, Apply;
    StandsStill(n.store, n.store.blobs);
    var o := RunLocal(cfg, n, op, at);
    if o.batch != [] {
      var blobs := if op.PutFile? then WithBlob(n.store.blobs, cfg.hash(op.content), op.content) else n.store.blobs;
      assert o.node.store == Apply(n.store.(blobs := blobs), o.batch);
      StandsStill(n.store, blobs);
      ApplyKeepsFeed(n.store.(blobs := blobs), o.batch);
      FeedKeptTrans(n.store, n.store.(blobs := blobs), o.node.store);
    }
  }

  lemma SweepKeepsFeed(n: NodeState, horizon: int)
    requires WellFormed(n.store)
    ensures var n' := Collect(n, horizon); WellFormed(n'.store) && OldFeedKept(n.store, n'.store)
  {
  }

  lemma StandsStill(st: StoreState, blobs: map<string, Bytes>)
    requires WellFormed(st)
    ensures WellFormed(st.(blobs := blobs)) && OldFeedKept(st, st.(blobs := blobs))
  {
  }

  lemma FeedKeptTrans(a: StoreState, b: StoreState, c: StoreState)
    requires OldFeedKept(a, b) && OldFeedKept(b, c)
    ensures OldFeedKept(a, c)
  {
  }

  lemma {:induction false} OpsKeepFeed(cfg: Config, n: NodeState, ops: seq<NodeOp>, k: nat)
    requires k <= |ops| && WellFormed(n.store)
    requires forall i | 0 <= i < |ops| :: WellShaped(ops[i])
    ensures var n' := RunOps(cfg, n, ops, k); WellFormed(n'.store) && OldFeedKept(n.store, n'.store)
  {
    hide WellFormed, OldFeedKept, RunOp;
    if k == 0 {
      StandsStill(n.store, n.store.blobs);
    } else {
      OpsKeepFeed(cfg, n, ops, k - 1);
      var before := RunOps(cfg, n, ops, k - 1);
      OpKeepsFeed(cfg, before, ops[k - 1]);
      FeedKeptTrans(n.store, before.store, RunOp(cfg, before, ops[k - 1]).store);
    }
  }

  /** The peer when it serves the k-th page: ops[i] is what it did between pages i and i + 1. */
  ghost function PeerAt(cfg: Config, peer: NodeState, ops: seq<seq<NodeOp>>, k: nat): NodeState
    requires k <= |ops|
    requires forall i | 0 <= i < |ops| :: AllShaped(ops[i])
  {
    if k == 0 then peer
    else RunOps(cfg, PeerAt(cfg, peer, ops, k - 1), ops[k - 1], |ops[k - 1]|)
  }

  /** Where the walk stands before the k-th page. */
  ghost function CursorAt(cfg: Config, peer: NodeState, ops: seq<seq<NodeOp>>, start: int, k: nat): int
    requires k <= |ops|
    requires forall i | 0 <= i < |ops| :: AllShaped(ops[i])
  {
    if k == 0 then start
    else GetManifest(PeerAt(cfg, peer, ops, k - 1).store.rows, CursorAt(cfg, peer, ops, start, k - 1)).head
  }

  ghost predicate WasServed(cfg: Config, peer: NodeState, ops: seq<seq<NodeOp>>, start: int, k: nat, m: Meta)
    requires k <= |ops|
    requires forall i | 0 <= i < |ops| :: AllShaped(ops[i])
  {
    exists i | 0 <= i < k ::
      m in GetManifest(PeerAt(cfg, peer, ops, i).store.rows, CursorAt(cfg, peer, ops, start, i)).entries
  }

  /**
   Paging over a changing feed. After k pages, with the peer committing, applying
   pages and collecting at will in between, each row the peer now holds with a
   position in (start, cursor] was delivered, exactly as it is, by one of the
   pages. Rows leave the interval; none enters it.
   */
  lemma {:induction false} WalkMissesNothing(cfg: Config, peer: NodeState, ops: seq<seq<NodeOp>>, start: int, k: nat)
    requires k <= |ops| && WellFormed(peer.store)
    requires forall i | 0 <= i < |ops| :: AllShaped(ops[i])
    ensures var now, cursor := PeerAt(cfg, peer, ops, k).store, CursorAt(cfg, peer, ops, start, k);
            && WellFormed(now)
            && start <= cursor && (cursor == start || cursor <= now.head)
            && forall p | p in now.rows && start < now.rows[p].pos <= cursor ::
                 WasServed(cfg, peer, ops, start, k, now.rows[p])
  {
    hide RunOps, GetManifest, WellFormed, Delivered, WasServed;
    if k > 0 {
      WalkMissesNothing(cfg, peer, ops, start, k - 1);
      var was, now := PeerAt(cfg, peer, ops, k - 1), PeerAt(cfg, peer, ops, k);
      var from, page := CursorAt(cfg, peer, ops, start, k - 1),
                        GetManifest(was.store.rows, CursorAt(cfg, peer, ops, start, k - 1));
      OpsKeepFeed(cfg, was, ops[k - 1], |ops[k - 1]|);
      ServedUpTo(was.store, from);
      forall p | p in now.store.rows && start < now.store.rows[p].pos <= page.head
        ensures WasServed(cfg, peer, ops, start, k, now.store.rows[p])
      {
        var m := now.store.rows[p];
        assert p in was.store.rows && was.store.rows[p] == m;
        if m.pos <= from {
          assert WasServed(cfg, peer, ops, start, k - 1, m);
          ServedBefore(cfg, peer, ops, start, k - 1, m);
        } else {
          ServedLast(cfg, peer, ops, start, k - 1, m);
        }
      }
    }
  }

  lemma ServedBefore(cfg: Config, peer: NodeState, ops: seq<seq<NodeOp>>, start: int, k: nat, m: Meta)
    requires k + 1 <= |ops|
    requires forall i | 0 <= i < |ops| :: AllShaped(ops[i])
    requires WasServed(cfg, peer, ops, start, k, m)
    ensures WasServed(cfg, peer, ops, start, k + 1, m)
  {
    hide PeerAt, CursorAt, GetManifest;
  }

  lemma ServedLast(cfg: Config, peer: NodeState, ops: seq<seq<NodeOp>>, start: int, k: nat, m: Meta)
    requires k + 1 <= |ops|
    requires forall i | 0 <= i < |ops| :: AllShaped(ops[i])
    requires m in GetManifest(PeerAt(cfg, peer, ops, k).store.rows, CursorAt(cfg, peer, ops, start, k)).entries
    ensures WasServed(cfg, peer, ops, start, k + 1, m)
  {
    hide PeerAt, CursorAt, GetManifest;
  }

  /** What one page says about the store that served it. */
  lemma ServedUpTo(st: StoreState, from: int)
    requires WellFormed(st)
    ensures var page := GetManifest(st.rows, from);
            && from <= page.head && (page.head == from || page.head <= st.head)
            && forall p | p in st.rows && from < st.rows[p].pos <= page.head :: st.rows[p] in page.entries
  {
    ManifestIsPage(st, from);
    hide GetManifest;
  }

  /* ----- a feed that stands still ----- */

  /** All that a puller reads, page after page, until a page says there is no more. */
  ghost function WalkAll(st: StoreState, cursor: int): seq<Meta>
    requires WellFormed(st)
    decreases |Above(st.rows, cursor)|
  {
    ManifestIsPage(st, cursor);
    var page := GetManifest(st.rows, cursor);
    if !page.more then page.entries
    else
      PageMakesProgress(st.rows, cursor, page);
      page.entries + WalkAll(st, page.head)
  }

  /**
   On an unchanging feed the walk terminates, and what it delivers is the whole
   feed above the starting cursor: every row, once, in feed order.
   */
  lemma {:induction false} WalkDeliversFeed(st: StoreState, cursor: int)
    requires WellFormed(st)
    ensures var all := WalkAll(st, cursor);
            && AreRows(st.rows, all) && IsAscending(cursor, all)
            && forall p :: p in Above(st.rows, cursor) <==> p in st.rows && st.rows[p] in all
    decreases |Above(st.rows, cursor)|
  {
    hide GetManifest;
    ManifestIsPage(st, cursor);
    var page := GetManifest(st.rows, cursor);
    if page.more {
      PageMakesProgress(st.rows, cursor, page);
      WalkDeliversFeed(st, page.head);
      var rest := WalkAll(st, page.head);
      assert WalkAll(st, cursor) == page.entries + rest;
      FeedsJoin(st.rows, cursor, page.head, page.entries, rest);
    } else {
      assert Above(st.rows, page.head) == {};
    }
  }

  lemma FeedsJoin(rows: Rows, since: int, middle: int, feed: seq<Meta>, rest: seq<Meta>)
    requires AreRows(rows, feed) && IsAscending(since, feed) && middle == HeadOf(since, feed)
    requires Delivered(rows, since, middle, feed)
    requires AreRows(rows, rest) && IsAscending(middle, rest)
    requires forall p :: p in Above(rows, middle) <==> p in rows && rows[p] in rest
    ensures AreRows(rows, feed + rest) && IsAscending(since, feed + rest)
    ensures forall p :: p in Above(rows, since) <==> p in rows && rows[p] in feed + rest
  {
    forall p | p in rows ensures p in Above(rows, since) <==> rows[p] in feed + rest {
      if rows[p].pos > middle {
        assert p in Above(rows, middle);
      } else if rows[p] in rest {
        assert p in Above(rows, middle);
      }
    }
  }
}
