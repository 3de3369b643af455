/**
 Applying a page of a peer's feed, and pulling page after page.

 What the outside world answers while an entry is processed (two readings of
 physical time and the peer's reply to a blob request) is an Input.
 */
module AntiEntropy {
  import opened Wrappers
  import Digest
  import opened Hlc
  import opened Path
  import opened Entry
  import opened Resolution
  import opened Store
  import opened Transport
  import opened Node

  datatype Input = Input(observeAt: int64, copyAt: int64, blob: Option<Bytes>)

  predicate IsHexDigit(c: char)
  {
    '0' <= c <= '9' || 'a' <= c <= 'f' || 'A' <= c <= 'F'
  }

  predicate Valid(cfg: Config, m: Meta)
  {
    && SanitizePath(m.path).Ok?
    && ValidKind(m.kind)
    && m.version.origin != ""
    && m.size <= cfg.maxFileSize
    && (m.hash != "" ==> |m.hash| == 64 && forall c | c in m.hash :: IsHexDigit(c))
    && (m.kind == KIND_DIR ==> m.hash == "")
  }

  predicate NeedsContent(m: Meta)
  {
    m.kind == KIND_FILE && !m.deleted && m.hash != ""
  }

  /** The blobs after fetching hash unless held; None when the peer's reply is missing, wrong or oversized. */
  function EnsureBlob(cfg: Config, blobs: map<string, Bytes>, hash: string, reply: Option<Bytes>):
    Option<map<string, Bytes>>
  {
    if hash in blobs then Some(blobs)
    else if reply.None? || cfg.hash(reply.value) != hash then None
    else if |reply.value| > cfg.maxFileSize then None
    else Some(WithBlob(blobs, cfg.hash(reply.value), reply.value))
  }

  /** The losing local row, refiled under its conflict name with a fresh local version. */
  function CopyOf(cfg: Config, local: Meta, clock: Timestamp): Meta
  {
    local.(path := ConflictName(local.path, local.version.origin, local.version.hlc.wall),
           prevHash := "", pos := 0, version := Version(clock, cfg.node))
  }

  datatype Acc = Acc(clock: Timestamp, blobs: map<string, Bytes>, batch: seq<Meta>, safe: int, deferred: bool)

  datatype Fate = Rejected | Skipped | Deferred | Stored

  datatype Judged = Judged(acc: Acc, fate: Fate)

  function Start(n: NodeState): Acc
  {
    Acc(n.clock, n.store.blobs, [], 0, false)
  }

  function Advance(acc: Acc, m: Meta): Acc
  {
    if acc.deferred then acc else acc.(safe := Max(acc.safe, m.pos))
  }

  function KeepCopy(cfg: Config, acc: Acc, local: Meta, at: int64): Acc
  {
    var clock := Tick(acc.clock, at);
    acc.(clock := clock, batch := acc.batch + [CopyOf(cfg, local, clock)])
  }

  /** The remote row wins: fetch its content if need be and put it in the batch, or defer it. */
  function Take(cfg: Config, acc: Acc, remote: Meta, reply: Option<Bytes>): Judged
  {
    var blobs := if NeedsContent(remote) then EnsureBlob(cfg, acc.blobs, remote.hash, reply) else Some(acc.blobs);
    if blobs.None? then Judged(acc.(deferred := true), Deferred)
    else Judged(Advance(acc.(blobs := blobs.value, batch := acc.batch + [remote]), remote), Stored)
  }

  /** One iteration over a page: rows is the committed tree, which the page does not change until its end. */
  function Judge(cfg: Config, rows: Rows, acc: Acc, remote: Meta, input: Input): Judged
  {
    if !Valid(cfg, remote) then Judged(Advance(acc, remote), Rejected)
    else
      var seen := Merge(acc.clock, remote.version.hlc, input.observeAt);
      if seen.None? then Judged(Advance(acc, remote), Rejected)
      else
        var acc1 := acc.(clock := seen.value);
        var local := if remote.path in rows then Some(rows[remote.path]) else None;
        match Resolve(local, remote)
        case Skip => Judged(Advance(acc1, remote), Skipped)
        case Conflict => Take(cfg, KeepCopy(cfg, acc1, local.value, input.copyAt), remote, input.blob)
        case Accept => Take(cfg, acc1, remote, input.blob)
  }

  /** The accumulator after the first k entries of a page. */
  function Fold(cfg: Config, rows: Rows, start: Acc, entries: seq<Meta>, inputs: seq<Input>, k: nat): Acc
    requires k <= |entries| == |inputs|
  {
    if k == 0 then start
    else Judge(cfg, rows, Fold(cfg, rows, start, entries, inputs, k - 1), entries[k - 1], inputs[k - 1]).acc
  }

  /** What happens to the i-th entry of a page. */
  function FateOf(cfg: Config, n: NodeState, entries: seq<Meta>, inputs: seq<Input>, i: nat): Fate
    requires i < |entries| == |inputs|
  {
    Judge(cfg, n.store.rows, Fold(cfg, n.store.rows, Start(n), entries, inputs, i), entries[i], inputs[i]).fate
  }

  function AccAt(cfg: Config, n: NodeState, entries: seq<Meta>, inputs: seq<Input>, k: nat): Acc
    requires k <= |entries| == |inputs|
  {
    Fold(cfg, n.store.rows, Start(n), entries, inputs, k)
  }

  datatype Applied = Applied(node: NodeState, batch: seq<Meta>, safe: int)

  function ApplyRemote(cfg: Config, n: NodeState, entries: seq<Meta>, inputs: seq<Input>): Applied
    requires |entries| == |inputs|
  {
    var acc := AccAt(cfg, n, entries, inputs, |entries|);
    Applied(NodeState(Apply(n.store.(blobs := acc.blobs), acc.batch), acc.clock), acc.batch, acc.safe)
  }

  /** The janitor: expired tombstones first, then the blobs nothing references any more. */
  ghost function Collect(n: NodeState, horizon: int): NodeState
  {
    n.(store := DropUnreferenced(DropExpired(n.store, horizon)))
  }

  function WithBookmark(n: NodeState, peer: string, bookmark: int): NodeState
  {
    n.(store := n.store.(peers := n.store.peers[peer := bookmark]))
  }

  /* ----- what other goroutines may do between two pages of a pull ----- */

  datatype NodeOp =
    | LocalWrite(op: LocalOp, at: int64)
    | OtherPage(entries: seq<Meta>, inputs: seq<Input>)
    | Janitor(horizon: int)
    | OtherRecord(peer: string, seen: int)

  predicate WellShaped(op: NodeOp)
  {
    op.OtherPage? ==> |op.entries| == |op.inputs|
  }

  predicate AllShaped(ops: seq<NodeOp>)
  {
    forall i | 0 <= i < |ops| :: WellShaped(ops[i])
  }

  ghost function RunOp(cfg: Config, n: NodeState, op: NodeOp): NodeState
    requires WellShaped(op)
  {
    match op
    case LocalWrite(op, at) => RunLocal(cfg, n, op, at).node
    case OtherPage(entries, inputs) => ApplyRemote(cfg, n, entries, inputs).node
    case Janitor(horizon) => Collect(n, horizon)
    case OtherRecord(peer, seen) => WithBookmark(n, peer, seen)
  }

  ghost function RunOps(cfg: Config, n: NodeState, ops: seq<NodeOp>, k: nat): NodeState
    requires k <= |ops|
    requires forall i | 0 <= i < |ops| :: WellShaped(ops[i])
  {
    if k == 0 then n else RunOp(cfg, RunOps(cfg, n, ops, k - 1), ops[k - 1])
  }

  /* ----- one pull ----- */

  /** cursor walks the peer's feed; bookmark is what has been made durable. */
  datatype Pull = Pull(node: NodeState, cursor: int, bookmark: int, done: bool, error: Option<Error>)

  /**
   One turn of the pull loop: what others did meanwhile, the peer's page (None
   when the request failed), and the inputs of its entries.
   */
  datatype Round = Round(others: seq<NodeOp>, reply: Option<Page>, inputs: seq<Input>)

  predicate RoundShaped(r: Round)
  {
    && (forall i | 0 <= i < |r.others| :: WellShaped(r.others[i]))
    && (r.reply.Some? ==> |r.reply.value.entries| == |r.inputs|)
  }

  /** Where a pull starts, given the peer's digest and feed head. */
  ghost function BeginPull(cfg: Config, n: NodeState, peer: string, digest: string, head: int): Pull
  {
    if Digest.DigestOf(cfg.sha, n.store.rows) == digest then
      Pull(WithBookmark(n, peer, head), head, head, true, None)
    else
      var seen := PeerSeq(n.store, peer);
      var since := if head < seen then 0 else seen;
      Pull(n, since, since, false, None)
  }

  ghost function PullRound(cfg: Config, peer: string, p: Pull, r: Round): Pull
    requires RoundShaped(r)
  {
    if p.done then p
    else
      var n := RunOps(cfg, p.node, r.others, |r.others|);
      if r.reply.None? then p.(node := n, done := true, error := Some(PeerFailed))
      else if r.reply.value.entries == [] then p.(node := n, done := true)
      else
        var page := r.reply.value;
        var applied := ApplyRemote(cfg, n, page.entries, r.inputs);
        var bookmark := Max(p.bookmark, applied.safe);
        Pull(WithBookmark(applied.node, peer, bookmark), page.head, bookmark, !page.more, None)
  }

  ghost function PullRounds(cfg: Config, peer: string, p: Pull, rounds: seq<Round>, k: nat): Pull
    requires k <= |rounds|
    requires forall i | 0 <= i < |rounds| :: RoundShaped(rounds[i])
  {
    if k == 0 then p else PullRound(cfg, peer, PullRounds(cfg, peer, p, rounds, k - 1), rounds[k - 1])
  }
}
