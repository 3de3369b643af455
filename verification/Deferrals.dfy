/**
 What one pull's bookmark says about deferred entries. Within a page nothing is
 bookmarked past a deferral; over a pull of several pages it may be, and this
 module says exactly when.
 */
module Deferrals {
  import opened Wrappers
  import opened Hlc
  import opened Path
  import opened Entry
  import opened Store
  import opened Transport
  import opened Node
  import opened AntiEntropy
  import opened Bookmarks

  /** Round k of the pull gets as far as applying a page. */
  ghost predicate Applies(cfg: Config, peer: string, p: Pull, rounds: seq<Round>, k: nat)
    requires k < |rounds| && AllRounds(rounds)
  {
    && !PullRounds(cfg, peer, p, rounds, k).done
    && rounds[k].reply.Some? && rounds[k].reply.value.entries != []
  }

  predicate AllRounds(rounds: seq<Round>)
  {
    forall i | 0 <= i < |rounds| :: RoundShaped(rounds[i])
  }

  /** The node as round k applies its page. */
  ghost function NodeFor(cfg: Config, peer: string, p: Pull, rounds: seq<Round>, k: nat): NodeState
    requires k < |rounds| && AllRounds(rounds)
  {
    assert RoundShaped(rounds[k]);
    RunOps(cfg, PullRounds(cfg, peer, p, rounds, k).node, rounds[k].others, |rounds[k].others|)
  }

  /** Entry i of the page of round k is deferred. */
  ghost predicate Defers(cfg: Config, peer: string, p: Pull, rounds: seq<Round>, k: nat, i: nat)
    requires k < |rounds| && AllRounds(rounds)
  {
    && Applies(cfg, peer, p, rounds, k)
    && RoundShaped(rounds[k])
    && i < |rounds[k].reply.value.entries|
    && FateOf(cfg, NodeFor(cfg, peer, p, rounds, k), rounds[k].reply.value.entries, rounds[k].inputs, i).Deferred?
  }

  /** The peer serves pages of its feed: entries in feed order above the cursor, the head at the last of them. */
  ghost predicate InFeedOrder(cfg: Config, peer: string, p: Pull, rounds: seq<Round>)
    requires AllRounds(rounds)
  {
    forall k | 0 <= k < |rounds| && Applies(cfg, peer, p, rounds, k) ::
      var page, cursor := rounds[k].reply.value, PullRounds(cfg, peer, p, rounds, k).cursor;
      IsAscending(cursor, page.entries) && page.head == HeadOf(cursor, page.entries)
  }

  /* ----- one round ----- */

  lemma RoundMoves(cfg: Config, peer: string, p: Pull, rounds: seq<Round>, k: nat)
    requires k < |rounds| && AllRounds(rounds)
    ensures var q, q' := PullRounds(cfg, peer, p, rounds, k), PullRounds(cfg, peer, p, rounds, k + 1);
            if Applies(cfg, peer, p, rounds, k) then
              RoundShaped(rounds[k]) &&
              var page := rounds[k].reply.value;
              var a := ApplyRemote(cfg, NodeFor(cfg, peer, p, rounds, k), page.entries, rounds[k].inputs);
              q' == Pull(WithBookmark(a.node, peer, Max(q.bookmark, a.safe)), page.head, Max(q.bookmark, a.safe),
                         !page.more, None)
            else q'.cursor == q.cursor && q'.bookmark == q.bookmark &&
                 (q'.node == q.node || q'.node == NodeFor(cfg, peer, p, rounds, k))
  {
    assert RoundShaped(rounds[k]);
    hide ApplyRemote, RunOps;
  }

  /** A page whose first entry is deferred vouches for nothing. */
  lemma {:induction false} FirstDeferralFreezes(cfg: Config, n: NodeState, entries: seq<Meta>, inputs: seq<Input>,
                                                k: nat)
    requires 0 < k <= |entries| == |inputs| && FateOf(cfg, n, entries, inputs, 0).Deferred?
    ensures AccAt(cfg, n, entries, inputs, k).deferred && AccAt(cfg, n, entries, inputs, k).safe == 0
  {
    hide Judge, FateOf;
    FateIs(cfg, n, entries, inputs, k - 1);
    JudgeBooks(cfg, n.store.rows, AccAt(cfg, n, entries, inputs, k - 1), entries[k - 1], inputs[k - 1]);
    if k > 1 {
      FirstDeferralFreezes(cfg, n, entries, inputs, k - 1);
    }
  }

  /** How one applied page moves the bookmark: past the cursor, unless its first entry is deferred. */
  lemma PageMovesBookmark(cfg: Config, n: NodeState, entries: seq<Meta>, inputs: seq<Input>, cursor: int, i: nat)
    requires |entries| == |inputs| && 0 <= cursor && IsAscending(cursor, entries) && i < |entries|
    ensures var safe := ApplyRemote(cfg, n, entries, inputs).safe;
            && 0 <= safe <= HeadOf(cursor, entries)
            && (FateOf(cfg, n, entries, inputs, i).Deferred? ==> safe < entries[i].pos)
            && (if FateOf(cfg, n, entries, inputs, 0).Deferred? then safe == 0 else safe > cursor)
  {
    hide FateOf, Fold, Apply;
    assert IsAscending(0, entries);
    SafeIsExact(cfg, n, entries, inputs, |entries|);
    assert entries[..|entries|] == entries;
    assert NoDeferralUpTo(cfg, n, entries, inputs, 0) <==> !FateOf(cfg, n, entries, inputs, 0).Deferred?;
    if FateOf(cfg, n, entries, inputs, 0).Deferred? {
      FirstDeferralFreezes(cfg, n, entries, inputs, |entries|);
    }
    hide AccAt;
  }

  /** The same, for round k of a pull. */
  lemma RoundMovesBookmark(cfg: Config, peer: string, p: Pull, rounds: seq<Round>, k: nat, i: nat)
    requires k < |rounds| && AllRounds(rounds) && InFeedOrder(cfg, peer, p, rounds)
    requires Applies(cfg, peer, p, rounds, k) && i < |rounds[k].reply.value.entries|
    requires 0 <= PullRounds(cfg, peer, p, rounds, k).cursor
    ensures var q, q' := PullRounds(cfg, peer, p, rounds, k), PullRounds(cfg, peer, p, rounds, k + 1);
            var entry := rounds[k].reply.value.entries[i];
            && q.cursor < entry.pos <= q'.cursor && q.bookmark <= q'.bookmark <= Max(q.bookmark, q'.cursor)
            && (Defers(cfg, peer, p, rounds, k, i) && q.bookmark < entry.pos ==> q'.bookmark < entry.pos)
            && (Defers(cfg, peer, p, rounds, k, 0) ==> q'.bookmark == Max(q.bookmark, 0))
            && (!Defers(cfg, peer, p, rounds, k, 0) ==> q'.bookmark > q.cursor)
  {
    hide ApplyRemote, RunOps, FateOf, PullRounds, NodeFor;
    RoundMoves(cfg, peer, p, rounds, k);
    assert RoundShaped(rounds[k]);
    PageMovesBookmark(cfg, NodeFor(cfg, peer, p, rounds, k), rounds[k].reply.value.entries, rounds[k].inputs,
                      PullRounds(cfg, peer, p, rounds, k).cursor, i);
  }

  /* ----- the whole pull ----- */

  /** The bookmark never overtakes the cursor, and neither goes back. */
  lemma {:induction false} BookmarkTrails(cfg: Config, peer: string, p: Pull, rounds: seq<Round>, k: nat)
    requires k <= |rounds| && AllRounds(rounds) && 0 <= p.bookmark <= p.cursor && InFeedOrder(cfg, peer, p, rounds)
    ensures var q := PullRounds(cfg, peer, p, rounds, k); p.cursor <= q.cursor && p.bookmark <= q.bookmark <= q.cursor
  {
    hide InFeedOrder, PullRound, FateOf, RunOps;
    if k > 0 {
      BookmarkTrails(cfg, peer, p, rounds, k - 1);
      RoundMoves(cfg, peer, p, rounds, k - 1);
      if Applies(cfg, peer, p, rounds, k - 1) {
        RoundMovesBookmark(cfg, peer, p, rounds, k - 1, 0);
      }
    }
  }

  /** Every page applied after round j and before round k begins with a deferral. */
  ghost predicate OnlyDeferrals(cfg: Config, peer: string, p: Pull, rounds: seq<Round>, j: nat, k: nat)
    requires k <= |rounds| && AllRounds(rounds)
  {
    forall m | j < m < k && Applies(cfg, peer, p, rounds, m) :: Defers(cfg, peer, p, rounds, m, 0)
  }

  /**
   Where the bookmark stands, k rounds into a pull, as to an entry deferred in
   round j: below it exactly as long as every later page began with a deferral.
   */
  lemma {:induction false} DeferralIsKept(cfg: Config, peer: string, p: Pull, rounds: seq<Round>, j: nat, i: nat,
                                          k: nat)
    requires j < k <= |rounds| && AllRounds(rounds) && 0 <= p.bookmark <= p.cursor && InFeedOrder(cfg, peer, p, rounds)
    requires Defers(cfg, peer, p, rounds, j, i)
    ensures var q, entry := PullRounds(cfg, peer, p, rounds, k), rounds[j].reply.value.entries[i];
            && entry.pos <= q.cursor
            && (q.bookmark < entry.pos <==> OnlyDeferrals(cfg, peer, p, rounds, j, k))
    decreases k
  {
    hide InFeedOrder, PullRounds, FateOf, NodeFor;
    var q, entry := PullRounds(cfg, peer, p, rounds, k - 1), rounds[j].reply.value.entries[i];
    RoundMoves(cfg, peer, p, rounds, k - 1);
    BookmarkTrails(cfg, peer, p, rounds, k - 1);
    if j == k - 1 {
      RoundMovesBookmark(cfg, peer, p, rounds, j, i);
    } else {
      DeferralIsKept(cfg, peer, p, rounds, j, i, k - 1);
      if Applies(cfg, peer, p, rounds, k - 1) {
        RoundMovesBookmark(cfg, peer, p, rounds, k - 1, 0);
      }
    }
  }

  /* ----- what is stored ----- */

  /** The program runs at most one pull of a peer at a time, so only this pull records a bookmark for it. */
  predicate LeavesBookmark(peer: string, ops: seq<NodeOp>)
  {
    forall i | 0 <= i < |ops| && ops[i].OtherRecord? :: ops[i].peer != peer
  }

  predicate OnlyPull(peer: string, rounds: seq<Round>)
  {
    forall k | 0 <= k < |rounds| :: LeavesBookmark(peer, rounds[k].others)
  }

  lemma {:induction false} OpsKeepBookmark(cfg: Config, peer: string, n: NodeState, ops: seq<NodeOp>, k: nat)
    requires k <= |ops| && LeavesBookmark(peer, ops)
    requires forall i | 0 <= i < |ops| :: WellShaped(ops[i])
    ensures PeerSeq(RunOps(cfg, n, ops, k).store, peer) == PeerSeq(n.store, peer)
  {
    hide RunLocal, AccAt, Upsert;
    if k > 0 {
      OpsKeepBookmark(cfg, peer, n, ops, k - 1);
      var op := ops[k - 1];
      if op.LocalWrite? {
        LocalKeepsBookmarks(cfg, RunOps(cfg, n, ops, k - 1), op.op, op.at);
      }
    }
  }

  lemma LocalKeepsBookmarks(cfg: Config, n: NodeState, op: LocalOp, at: int64)
    ensures RunLocal(cfg, n, op, at).node.store.peers == n.store.peers
  {
    hide SanitizePath, SanitizeMode, Tick, Upsert;
  }

  /** Once a round has applied a page, the store holds the bookmark. */
  lemma {:induction false} BookmarkIsStored(cfg: Config, peer: string, p: Pull, rounds: seq<Round>, j: nat, k: nat)
    requires j < k <= |rounds| && AllRounds(rounds) && OnlyPull(peer, rounds) && Applies(cfg, peer, p, rounds, j)
    ensures var q := PullRounds(cfg, peer, p, rounds, k); PeerSeq(q.node.store, peer) == q.bookmark
    decreases k
  {
    hide ApplyRemote, RunOps, PullRounds;
    RoundMoves(cfg, peer, p, rounds, k - 1);
    if j < k - 1 {
      BookmarkIsStored(cfg, peer, p, rounds, j, k - 1);
      assert RoundShaped(rounds[k - 1]);
      assert LeavesBookmark(peer, rounds[k - 1].others);
      var others := rounds[k - 1].others;
      OpsKeepBookmark(cfg, peer, PullRounds(cfg, peer, p, rounds, k - 1).node, others, |others|);
    }
  }

  /**
   Deferral over a whole pull. An entry deferred in one page of a pull lies above
   the bookmark the pull leaves in the store, so that the next pull asks for it
   again, if and only if every page applied after it began with a deferral too. A
   deferring page that is the last of its pull always meets the condition.
   */
  lemma DeferralOverPull(cfg: Config, peer: string, p: Pull, rounds: seq<Round>, j: nat, i: nat)
    requires j < |rounds| && AllRounds(rounds) && OnlyPull(peer, rounds)
    requires 0 <= p.bookmark <= p.cursor && InFeedOrder(cfg, peer, p, rounds)
    requires Defers(cfg, peer, p, rounds, j, i)
    ensures PeerSeq(PullRounds(cfg, peer, p, rounds, |rounds|).node.store, peer) < rounds[j].reply.value.entries[i].pos
            <==> OnlyDeferrals(cfg, peer, p, rounds, j, |rounds|)
  {
    hide PullRounds, RunOps, FateOf;
    DeferralIsKept(cfg, peer, p, rounds, j, i, |rounds|);
    BookmarkIsStored(cfg, peer, p, rounds, j, |rounds|);
  }

  /* ----- a pull that passes over a file ----- */

  const ZERO_HASH := seq(64, _ => '0')

  /** A file whose content the peer fails to send, and on the next page a directory. */
  const UNSENT := Meta("f", KIND_FILE, ZERO_HASH, "", 1, 0, 0, 0, Version(Timestamp(1, 0), "a"), false, 0, 1)
  const NEXT_ROW := Meta("d", KIND_DIR, "", "", 0, 0, 0, 0, Version(Timestamp(2, 0), "a"), false, 0, 2)
  const NO_REPLY := Input(5, 5, None)

  const PASSING_PULL := [
    Round([], Some(Page([UNSENT], 1, true)), [NO_REPLY]),
    Round([], Some(Page([NEXT_ROW], 2, false)), [NO_REPLY])]

  lemma OneEntry(cfg: Config, n: NodeState, m: Meta, input: Input)
    ensures AccAt(cfg, n, [m], [input], 1) == Judge(cfg, n.store.rows, Start(n), m, input).acc
  {
    hide Judge;
    assert Fold(cfg, n.store.rows, Start(n), [m], [input], 0) == Start(n);
  }

  lemma UnsentIsDeferred(cfg: Config)
    requires cfg.maxFileSize >= 1
    ensures Judge(cfg, map[], Start(FRESH_NODE), UNSENT, NO_REPLY)
         == Judged(Acc(Timestamp(5, 0), map[], [], 0, true), Deferred)
  {
    PlainLetter('f');
    hide SanitizePath;
    assert Valid(cfg, UNSENT);
  }

  lemma NextIsStored(cfg: Config, n: NodeState)
    requires cfg.maxFileSize >= 1 && n.store.rows == map[] && n.clock == Timestamp(5, 0)
    ensures Judge(cfg, map[], Start(n), NEXT_ROW, NO_REPLY)
         == Judged(Acc(Timestamp(5, 1), n.store.blobs, [NEXT_ROW], 2, false), Stored)
  {
    PlainLetter('d');
    hide SanitizePath;
    assert Valid(cfg, NEXT_ROW);
  }

  /**
   A pull over two pages that loses sight of a file: its content could not be
   fetched while the first page was applied, yet the pull succeeds and leaves the
   bookmark past it, with no row for it in the store.
   */
  lemma PullMayPassDeferral(cfg: Config)
    requires cfg.maxFileSize >= 1
    ensures AllRounds(PASSING_PULL)
    ensures var begin := Pull(FRESH_NODE, 0, 0, false, None);
            var end := PullRounds(cfg, "a", begin, PASSING_PULL, 2);
            && Defers(cfg, "a", begin, PASSING_PULL, 0, 0)
            && end.done && end.error == None
            && PeerSeq(end.node.store, "a") > UNSENT.pos && UNSENT.path !in end.node.store.rows
  {
    UnsentIsDeferred(cfg);
    hide Judge;
    var begin := Pull(FRESH_NODE, 0, 0, false, None);
    var one, two := PASSING_PULL[0], PASSING_PULL[1];
    assert AllRounds(PASSING_PULL);
    assert RunOps(cfg, FRESH_NODE, [], 0) == FRESH_NODE;
    OneEntry(cfg, FRESH_NODE, UNSENT, NO_REPLY);
    var middle := PullRounds(cfg, "a", begin, PASSING_PULL, 1);
    assert PullRounds(cfg, "a", begin, PASSING_PULL, 0) == begin;
    assert middle == PullRound(cfg, "a", begin, one);
    assert middle.node == NodeState(EMPTY_STORE.(peers := map["a" := 0]), Timestamp(5, 0));
    NextIsStored(cfg, middle.node);
    OneEntry(cfg, middle.node, NEXT_ROW, NO_REPLY);
    assert RunOps(cfg, middle.node, [], 0) == middle.node;
    assert PullRounds(cfg, "a", begin, PASSING_PULL, 2) == PullRound(cfg, "a", middle, two);
    assert Upsert(map[], [NEXT_ROW], 0, 0) == map[];
  }
}
