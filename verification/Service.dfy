/**
 The single writer, updating its clock and store in place. Every method is tied
 to the state function that specifies it.
 */
module Service {
  import opened Wrappers
  import opened Hlc
  import opened Path
  import opened Entry
  import opened Resolution
  import opened Store
  import opened Digest
  import opened Node
  import opened AntiEntropy

  class Service {
    const cfg: Config
    const clock: Clock
    const store: Store

    constructor (cfg: Config)
      ensures this.cfg == cfg && State() == FRESH_NODE
      ensures fresh(clock) && fresh(store)
    {
      this.cfg := cfg;
      clock := new Clock();
      store := new Store();
    }

    function State(): NodeState
      reads this, clock, store
    {
      NodeState(store.State(), clock.last)
    }

    /** Persists the entries; waking subscribers and gossip are separate (see Notify). */
    method Commit(metas: seq<Meta>)
      modifies store
      ensures State() == old(State()).(store := Apply(old(State()).store, metas))
    {
      var _ := store.Apply(metas);
    }

    method PutFile(path: string, content: Bytes, mode: bv32, uid: uint32, gid: uint32, at: int64)
      returns (error: Option<Error>)
      modifies clock, store
      ensures var o := DoPutFile(cfg, old(State()), path, content, mode, uid, gid, at);
              State() == o.node && error == o.error
    {
      var clean := SanitizePath(path);
      if clean.Err? {
        return Some(BadPath(clean.error));
      }
      if |content| > cfg.maxFileSize {
        return Some(TooLarge);
      }
      var mode' := SanitizeMode(mode);
      var hash := cfg.hash(content);
      if path in store.rows && SameFile(store.rows[path], hash, mode', uid, gid) {
        return None;
      }
      var _ := store.PutBlob(content, cfg.hash);
      var prevHash := HashAt(store.rows, path);
      var stamp := clock.Now(at);
      Commit([Meta(path, KIND_FILE, hash, prevHash, |content|, mode', uid, gid,
                   Version(stamp, cfg.node), false, 0, 0)]);
      return None;
    }

    method PutDir(path: string, mode: bv32, uid: uint32, gid: uint32, at: int64) returns (error: Option<Error>)
      modifies clock, store
      ensures var o := DoPutDir(cfg, old(State()), path, mode, uid, gid, at);
              State() == o.node && error == o.error
    {
      var clean := SanitizePath(path);
      if clean.Err? {
        return Some(BadPath(clean.error));
      }
      var mode' := SanitizeMode(mode);
      if path in store.rows && SameDir(store.rows[path], mode', uid, gid) {
        return None;
      }
      var stamp := clock.Now(at);
      Commit([Meta(path, KIND_DIR, "", "", 0, mode', uid, gid, Version(stamp, cfg.node), false, 0, 0)]);
      return None;
    }

    method SetAttr(path: string, mode: bv32, uid: uint32, gid: uint32, at: int64) returns (error: Option<Error>)
      modifies clock, store
      ensures var o := DoSetAttr(cfg, old(State()), path, mode, uid, gid, at);
              State() == o.node && error == o.error
    {
      var clean := SanitizePath(path);
      if clean.Err? {
        return Some(BadPath(clean.error));
      }
      var mode' := SanitizeMode(mode);
      if path !in store.rows || store.rows[path].deleted {
        return Some(NotFound);
      }
      var cur := store.rows[path];
      if cur.mode == mode' && cur.uid == uid && cur.gid == gid {
        return None;
      }
      var stamp := clock.Now(at);
      Commit([cur.(mode := mode', uid := uid, gid := gid, prevHash := cur.hash,
                   version := Version(stamp, cfg.node), pos := 0)]);
      return None;
    }

    method Delete(path: string, deletedAt: int, at: int64) returns (error: Option<Error>)
      modifies clock, store
      ensures var o := DoDelete(cfg, old(State()), path, deletedAt, at);
              State() == o.node && error == o.error
    {
      var clean := SanitizePath(path);
      if clean.Err? {
        return Some(BadPath(clean.error));
      }
      if path !in store.rows || store.rows[path].deleted {
        return None;
      }
      var cur := store.rows[path];
      var stamp := clock.Now(at);
      Commit([Meta(path, cur.kind, "", cur.hash, 0, cur.mode, cur.uid, cur.gid,
                   Version(stamp, cfg.node), true, deletedAt, 0)]);
      return None;
    }

    /** Fetches content from a peer unless it is already local. */
    method EnsureContent(hash: string, reply: Option<Bytes>) returns (ok: bool)
      modifies store`blobs
      ensures var blobs := EnsureBlob(cfg, old(store.blobs), hash, reply);
              ok == blobs.Some? && store.blobs == if ok then blobs.value else old(store.blobs)
      ensures ok <==> hash in old(store.blobs) || (reply.Some? && cfg.hash(reply.value) == hash
                                                   && |reply.value| <= cfg.maxFileSize)
      ensures ok ==> hash in store.blobs
    {
      if hash in store.blobs {
        return true;
      }
      if reply.None? || cfg.hash(reply.value) != hash {
        return false;
      }
      if |reply.value| > cfg.maxFileSize {
        return false;
      }
      var _ := store.PutBlob(reply.value, cfg.hash);
      return true;
    }

    /** Validates, resolves and stores a page; returns the feed position that may be bookmarked. */
    method ApplyPage(entries: seq<Meta>, inputs: seq<Input>) returns (safe: int)
      requires |entries| == |inputs|
      modifies clock, store
      ensures var applied := ApplyRemote(cfg, old(State()), entries, inputs);
              State() == applied.node && safe == applied.safe
    {
      ghost var was := State();
      var batch: seq<Meta> := [];
      var deferred := false;
      safe := 0;
      for i := 0 to |entries|
        invariant store.State() == was.store.(blobs := store.blobs)
        invariant Acc(clock.last, store.blobs, batch, safe, deferred) == AccAt(cfg, was, entries, inputs, i)
      {
        var remote, input := entries[i], inputs[i];
        var fate := Rejected;
        if Valid(cfg, remote) {
          var seen := clock.Observe(remote.version.hlc, input.observeAt);
          if seen.Some? {
            var local := if remote.path in store.rows then Some(store.rows[remote.path]) else None;
            var decision := Resolve(local, remote);
            if decision.Skip? {
              fate := Skipped;
            } else {
              if decision.Conflict? {
                var stamp := clock.Now(input.copyAt);
                batch := batch + [CopyOf(cfg, local.value, stamp)];
              }
              var ok := true;
              if NeedsContent(remote) {
                ok := EnsureContent(remote.hash, input.blob);
              }
              if ok {
                batch := batch + [remote];
                fate := Stored;
              } else {
                deferred := true;
                fate := Deferred;
              }
            }
          }
        }
        if fate != Deferred && !deferred {
          safe := Max(safe, remote.pos);
        }
      }
      if batch != [] {
        Commit(batch);
      }
    }

    method CollectGarbage(horizon: int)
      modifies store
      ensures State() == Collect(old(State()), horizon)
      ensures forall p | p in old(store.rows) ::
                p !in store.rows <==> old(store.rows)[p].deleted && 0 < old(store.rows)[p].deletedAt < horizon
    {
      var _ := store.GCTombstones(horizon);
      var _ := store.GCBlobs();
    }

    /** Stands for what other goroutines get to do while this one does not hold the write lock. */
    method LetOthersRun(ops: seq<NodeOp>)
      requires forall i | 0 <= i < |ops| :: WellShaped(ops[i])
      modifies clock, store
      ensures State() == RunOps(cfg, old(State()), ops, |ops|)
    {
      ghost var was := State();
      for i := 0 to |ops|
        invariant State() == RunOps(cfg, was, ops, i)
      {
        match ops[i] {
          case LocalWrite(op, at) => {
            var _ := RunLocalOp(op, at);
          }
          case OtherPage(entries, inputs) => {
            assert WellShaped(ops[i]);
            var _ := ApplyPage(entries, inputs);
          }
          case Janitor(horizon) => {
            CollectGarbage(horizon);
          }
          case OtherRecord(peer, seen) => {
            store.SetPeerSeq(peer, seen);
          }
        }
      }
    }

    method RunLocalOp(op: LocalOp, at: int64) returns (error: Option<Error>)
      modifies clock, store
      ensures var o := RunLocal(cfg, old(State()), op, at);
              State() == o.node && error == o.error
    {
      match op {
        case PutFile(path, content, mode, uid, gid) => {
          error := PutFile(path, content, mode, uid, gid, at);
        }
        case PutDir(path, mode, uid, gid) => {
          error := PutDir(path, mode, uid, gid, at);
        }
        case SetAttr(path, mode, uid, gid) => {
          error := SetAttr(path, mode, uid, gid, at);
        }
        case Delete(path, deletedAt) => {
          error := Delete(path, deletedAt, at);
        }
      }
    }

    /** One turn of the pull loop: fetch a page, apply it, make the bookmark durable. */
    method PullPage(peer: string, round: Round, cursor: int, bookmark: int)
      returns (cursor': int, bookmark': int, done: bool, error: Option<Error>)
      requires RoundShaped(round)
      modifies clock, store
      ensures PullRound(cfg, peer, Pull(old(State()), cursor, bookmark, false, None), round)
           == Pull(State(), cursor', bookmark', done, error)
      ensures !done ==> error == None
    {
      cursor', bookmark', done, error := cursor, bookmark, true, None;
      LetOthersRun(round.others);
      if round.reply.None? {
        error := Some(PeerFailed);
        return;
      }
      var page := round.reply.value;
      if |page.entries| == 0 {
        return;
      }
      var safe := ApplyPage(page.entries, round.inputs);
      cursor' := page.head;
      bookmark' := Max(bookmark, safe);
      store.SetPeerSeq(peer, bookmark');
      done := !page.more;
    }

    /** Decides whether a pull is needed, and from where in the peer's feed. */
    method CompareDigests(peer: string, digest: string, head: int) returns (cursor: int, bookmark: int, done: bool)
      modifies store
      ensures BeginPull(cfg, old(State()), peer, digest, head) == Pull(State(), cursor, bookmark, done, None)
    {
      var local, _, _ := ComputeDigest(store, cfg.sha);
      if local == digest {
        store.SetPeerSeq(peer, head);
        return head, head, true;
      }
      var since := if peer in store.peers then store.peers[peer] else 0;
      // A peer whose head is behind our bookmark was rebuilt: start over.
      if head < since {
        since := 0;
      }
      return since, since, false;
    }

    /**
     Brings this node up to date with one peer: compare digests, then walk the
     peer's feed page by page. The walk ends when a page says there is no more,
     when the peer fails, or when it is interrupted (the rounds run out).
     */
    method SyncPeer(peer: string, digest: string, head: int, rounds: seq<Round>) returns (error: Option<Error>)
      requires forall i | 0 <= i < |rounds| :: RoundShaped(rounds[i])
      modifies clock, store
      ensures var p := PullRounds(cfg, peer, BeginPull(cfg, old(State()), peer, digest, head), rounds, |rounds|);
              State() == p.node && error == p.error
    {
      hide PullRound, BeginPull;
      ghost var begin := BeginPull(cfg, State(), peer, digest, head);
      var cursor, bookmark, done := CompareDigests(peer, digest, head);
      error := None;
      var i := 0;
      while i < |rounds| && !done
        invariant 0 <= i <= |rounds|
        invariant PullRounds(cfg, peer, begin, rounds, i) == Pull(State(), cursor, bookmark, done, error)
        invariant done || error == None
      {
        cursor, bookmark, done, error := PullPage(peer, rounds[i], cursor, bookmark);
        i := i + 1;
      }
      if done {
        FinishedPullStays(cfg, peer, begin, rounds, i, |rounds|);
      }
    }
  }

  lemma {:induction false} FinishedPullStays(cfg: Config, peer: string, p: Pull, rounds: seq<Round>, k: nat, n: nat)
    requires forall i | 0 <= i < |rounds| :: RoundShaped(rounds[i])
    requires k <= n <= |rounds| && PullRounds(cfg, peer, p, rounds, k).done
    ensures PullRounds(cfg, peer, p, rounds, n) == PullRounds(cfg, peer, p, rounds, k)
    decreases n
  {
    hide RunOps, ApplyRemote;
    if k < n {
      FinishedPullStays(cfg, peer, p, rounds, k, n - 1);
      var before := PullRounds(cfg, peer, p, rounds, n - 1);
      assert PullRound(cfg, peer, before, rounds[n - 1]) == before;
    }
  }
}
