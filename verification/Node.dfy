/**
 A node's replicated state and the writes that originate on it: what
 PutFile, PutDir, SetAttr and Delete do to the store and the clock.
 */
module Node {
  import opened Wrappers
  import opened Hlc
  import opened Path
  import opened Entry
  import opened Store
  import opened Resolution

  /** hash addresses content (SHA-256 in hex); sha digests the whole tree. */
  datatype Config = Config(node: string, maxFileSize: int, hash: Bytes -> string, sha: string -> string)

  datatype NodeState = NodeState(store: StoreState, clock: Timestamp)

  const FRESH_NODE := NodeState(EMPTY_STORE, ZERO_TIMESTAMP)

  datatype Error = BadPath(why: PathError) | TooLarge | NotFound | PeerFailed

  /** What an operation leaves behind: the new state, the entries it committed, and its error. */
  datatype Outcome = Outcome(node: NodeState, batch: seq<Meta>, error: Option<Error>)

  datatype LocalOp =
    | PutFile(path: string, content: Bytes, mode: bv32, uid: uint32, gid: uint32)
    | PutDir(path: string, mode: bv32, uid: uint32, gid: uint32)
    | SetAttr(path: string, mode: bv32, uid: uint32, gid: uint32)
    | Delete(path: string, deletedAt: int)

  function HashAt(rows: Rows, path: string): string
  {
    if path in rows then rows[path].hash else ""
  }

  function Refuse(n: NodeState, e: Error): Outcome
  {
    Outcome(n, [], Some(e))
  }

  function Unchanged(n: NodeState): Outcome
  {
    Outcome(n, [], None)
  }

  /** Commits one locally stamped entry. */
  function Write(n: NodeState, clock: Timestamp, blobs: map<string, Bytes>, m: Meta): Outcome
  {
    Outcome(NodeState(Apply(n.store.(blobs := blobs), [m]), clock), [m], None)
  }

  predicate SameFile(m: Meta, hash: string, mode: bv32, uid: uint32, gid: uint32)
  {
    !m.deleted && m.kind == KIND_FILE && m.hash == hash && m.mode == mode && m.uid == uid && m.gid == gid
  }

  predicate SameDir(m: Meta, mode: bv32, uid: uint32, gid: uint32)
  {
    !m.deleted && m.kind == KIND_DIR && m.mode == mode && m.uid == uid && m.gid == gid
  }

  function DoPutFile(cfg: Config, n: NodeState, path: string, content: Bytes, mode: bv32, uid: uint32, gid: uint32,
                     at: int64): Outcome
  {
    var clean := SanitizePath(path);
    if clean.Err? then Refuse(n, BadPath(clean.error))
    else if |content| > cfg.maxFileSize then Refuse(n, TooLarge)
    else
      var rows, hash, mode' := n.store.rows, cfg.hash(content), SanitizeMode(mode);
      if path in rows && SameFile(rows[path], hash, mode', uid, gid) then Unchanged(n)
      else
        var clock := Tick(n.clock, at);
        Write(n, clock, WithBlob(n.store.blobs, hash, content),
              Meta(path, KIND_FILE, hash, HashAt(rows, path), |content|, mode', uid, gid,
                   Version(clock, cfg.node), false, 0, 0))
  }

  function DoPutDir(cfg: Config, n: NodeState, path: string, mode: bv32, uid: uint32, gid: uint32, at: int64): Outcome
  {
    var clean := SanitizePath(path);
    if clean.Err? then Refuse(n, BadPath(clean.error))
    else
      var rows, mode' := n.store.rows, SanitizeMode(mode);
      if path in rows && SameDir(rows[path], mode', uid, gid) then Unchanged(n)
      else
        var clock := Tick(n.clock, at);
        Write(n, clock, n.store.blobs,
              Meta(path, KIND_DIR, "", "", 0, mode', uid, gid, Version(clock, cfg.node), false, 0, 0))
  }

  function DoSetAttr(cfg: Config, n: NodeState, path: string, mode: bv32, uid: uint32, gid: uint32, at: int64): Outcome
  {
    var clean := SanitizePath(path);
    if clean.Err? then Refuse(n, BadPath(clean.error))
    else
      var rows, mode' := n.store.rows, SanitizeMode(mode);
      if path !in rows || rows[path].deleted then Refuse(n, NotFound)
      else if rows[path].mode == mode' && rows[path].uid == uid && rows[path].gid == gid then Unchanged(n)
      else
        var clock := Tick(n.clock, at);
        Write(n, clock, n.store.blobs,
              rows[path].(mode := mode', uid := uid, gid := gid, prevHash := rows[path].hash,
                          version := Version(clock, cfg.node), pos := 0))
  }

  function DoDelete(cfg: Config, n: NodeState, path: string, deletedAt: int, at: int64): Outcome
  {
    var clean := SanitizePath(path);
    if clean.Err? then Refuse(n, BadPath(clean.error))
    else
      var rows := n.store.rows;
      if path !in rows || rows[path].deleted then Unchanged(n)
      else
        var cur, clock := rows[path], Tick(n.clock, at);
        Write(n, clock, n.store.blobs,
              Meta(path, cur.kind, "", cur.hash, 0, cur.mode, cur.uid, cur.gid,
                   Version(clock, cfg.node), true, deletedAt, 0))
  }

  function RunLocal(cfg: Config, n: NodeState, op: LocalOp, at: int64): Outcome
  {
    match op
    case PutFile(path, content, mode, uid, gid) => DoPutFile(cfg, n, path, content, mode, uid, gid, at)
    case PutDir(path, mode, uid, gid) => DoPutDir(cfg, n, path, mode, uid, gid, at)
    case SetAttr(path, mode, uid, gid) => DoSetAttr(cfg, n, path, mode, uid, gid, at)
    case Delete(path, deletedAt) => DoDelete(cfg, n, path, deletedAt, at)
  }

  /* ----- what the local writes promise ----- */

  /** The row a reader sees after a write, with its content. */
  predicate ReadsBack(n: NodeState, path: string, content: Bytes, mode: bv32, uid: uint32, gid: uint32)
  {
    && path in n.store.rows
    && var m := n.store.rows[path];
       !m.deleted && m.kind == KIND_FILE && m.mode == mode && m.uid == uid && m.gid == gid
       && m.hash in n.store.blobs && n.store.blobs[m.hash] == content
  }

  /** Blobs are filed under the hash of their content. */
  ghost predicate BlobsAddressed(cfg: Config, blobs: map<string, Bytes>)
  {
    forall h | h in blobs :: cfg.hash(blobs[h]) == h
  }

  ghost predicate ContentInjective(cfg: Config)
  {
    forall a, b | cfg.hash(a) == cfg.hash(b) :: a == b
  }

  /** A live file row whose content is missing. */
  predicate LacksContent(n: NodeState, path: string)
  {
    && path in n.store.rows
    && var m := n.store.rows[path];
       !m.deleted && m.kind == KIND_FILE && m.hash != "" && m.hash !in n.store.blobs
  }

  /** The committed entry of a local write is what its path holds afterwards; other paths are untouched. */
  lemma WriteLands(cfg: Config, n: NodeState, op: LocalOp, at: int64)
    requires WellFiled(n.store.rows)
    ensures var o := RunLocal(cfg, n, op, at);
            && |o.batch| <= 1
            && (o.batch == [] ==> o.node == n)
            && (o.batch != [] ==>
                  && o.error.None? && o.batch[0].path == op.path && SanitizePath(op.path).Ok?
                  && o.batch[0].version == Version(Tick(n.clock, at), cfg.node)
                  && o.node.clock == Tick(n.clock, at)
                  && o.node.store.head == n.store.head + 1
                  && o.node.store.rows == n.store.rows[op.path := o.batch[0].(pos := n.store.head + 1)]
                  && o.node.store.peers == n.store.peers)
  {
    var o := RunLocal(cfg, n, op, at);
    if o.batch != [] {
      assert Upsert(n.store.rows, o.batch, n.store.head, 0) == n.store.rows;
    }
  }

  /**
   Write then read: an accepted PutFile leaves exactly the content and metadata
   offered, changes no other path, and offering the same again writes nothing.
   That last clause is what stops a mirror's own writes from echoing. A write is
   made exactly when content, kind, mode or owner differ from a live row; it records
   the size of the content and the hash it replaces.
   */
  lemma PutFileReadsBack(cfg: Config, n: NodeState, path: string, content: Bytes, mode: bv32, uid: uint32, gid: uint32,
                         at: int64, again: int64)
    requires WellFiled(n.store.rows)
    requires BlobsAddressed(cfg, n.store.blobs) && ContentInjective(cfg)
    requires !LacksContent(n, path) && cfg.hash(content) != ""
    ensures var o := DoPutFile(cfg, n, path, content, mode, uid, gid, at);
            && (o.error.None? <==> SanitizePath(path).Ok? && |content| <= cfg.maxFileSize)
            && (o.error.Some? ==> o.node == n && o.batch == [])
            && (o.error.None? ==>
                  && ReadsBack(o.node, path, content, SanitizeMode(mode), uid, gid)
                  && (forall q | q != path :: Get(o.node.store, q) == Get(n.store, q))
                  && (o.node == n <==> ReadsBack(n, path, content, SanitizeMode(mode), uid, gid))
                  && (o.node != n ==>
                        var m := o.node.store.rows[path];
                        && m.size == |content| && m.hash == cfg.hash(content) && m.deletedAt == 0
                        && m.prevHash == (if path in n.store.rows then n.store.rows[path].hash else ""))
                  && DoPutFile(cfg, o.node, path, content, mode, uid, gid, again) == Unchanged(o.node))
  {
    WriteLands(cfg, n, PutFile(path, content, mode, uid, gid), at);
  }

  /**
   A node that already holds the row a local write replaced takes the new row
   cleanly: no write to content it has seen is ever mistaken for a conflict.
   */
  lemma LocalWriteFastForwards(cfg: Config, n: NodeState, op: LocalOp, at: int64, elsewhere: Meta)
    requires op.path in n.store.rows && Norm(elsewhere) == Norm(n.store.rows[op.path])
    requires RunLocal(cfg, n, op, at).batch != []
    requires Precedes(elsewhere.version.hlc, Tick(n.clock, at))
    ensures Resolve(Some(elsewhere), RunLocal(cfg, n, op, at).batch[0]).Accept? <==>
            !(op.PutDir? && HoldsContent(elsewhere))
  {
  }

  ghost predicate OnlyAt(n: NodeState, n': NodeState, path: string)
  {
    forall q | q != path :: Get(n'.store, q) == Get(n.store, q)
  }

  /**
   An accepted PutDir leaves a live directory with the metadata offered and nothing else
   changed; again is a no-op.
   */
  lemma PutDirReadsBack(cfg: Config, n: NodeState, path: string, mode: bv32, uid: uint32, gid: uint32, at: int64,
                        again: int64)
    requires WellFiled(n.store.rows)
    ensures var o := DoPutDir(cfg, n, path, mode, uid, gid, at);
            && (o.error.None? <==> SanitizePath(path).Ok?) && (o.error.Some? ==> o.node == n)
            && OnlyAt(n, o.node, path) && o.node.store.blobs == n.store.blobs
            && (o.error.None? ==>
                  && DoPutDir(cfg, o.node, path, mode, uid, gid, again) == Unchanged(o.node)
                  && path in o.node.store.rows
                  && var m := o.node.store.rows[path];
                     && !m.deleted && m.kind == KIND_DIR && m.mode == SanitizeMode(mode) && m.uid == uid && m.gid == gid
                     && (o.node != n ==> m.hash == "" && m.prevHash == "" && m.size == 0 && m.deletedAt == 0))
  {
    hide SanitizePath, SanitizeMode, Tick;
    WriteLands(cfg, n, PutDir(path, mode, uid, gid), at);
  }

  /** An accepted SetAttr changes attributes alone: kind, content, size and tombstone state stay; again is a no-op. */
  lemma SetAttrKeepsContent(cfg: Config, n: NodeState, path: string, mode: bv32, uid: uint32, gid: uint32, at: int64,
                            again: int64)
    requires WellFiled(n.store.rows)
    ensures var o := DoSetAttr(cfg, n, path, mode, uid, gid, at);
            var live := path in n.store.rows && !n.store.rows[path].deleted;
            && (o.error.None? <==> SanitizePath(path).Ok? && live) && (o.error.Some? ==> o.node == n)
            && OnlyAt(n, o.node, path) && o.node.store.blobs == n.store.blobs
            && (o.error.None? ==>
                  && DoSetAttr(cfg, o.node, path, mode, uid, gid, again) == Unchanged(o.node)
                  && path in o.node.store.rows
                  && var was, m := n.store.rows[path], o.node.store.rows[path];
                     && m.(version := was.version, pos := was.pos, prevHash := was.prevHash)
                        == was.(mode := SanitizeMode(mode), uid := uid, gid := gid)
                     && (m != was ==> m.prevHash == was.hash))
  {
    hide SanitizePath, SanitizeMode, Tick;
    WriteLands(cfg, n, SetAttr(path, mode, uid, gid), at);
  }

  /**
   After an accepted Delete no live row is left, what was live is a tombstone that names
   its content, and again is a no-op.
   */
  lemma DeleteLeavesTombstone(cfg: Config, n: NodeState, path: string, deletedAt: int, at: int64, again: int64)
    requires WellFiled(n.store.rows)
    ensures var o := DoDelete(cfg, n, path, deletedAt, at);
            && (o.error.None? <==> SanitizePath(path).Ok?) && (o.error.Some? ==> o.node == n)
            && OnlyAt(n, o.node, path) && o.node.store.blobs == n.store.blobs
            && (o.error.None? ==>
                  && DoDelete(cfg, o.node, path, deletedAt, again) == Unchanged(o.node)
                  && (path in o.node.store.rows <==> path in n.store.rows)
                  && (path in n.store.rows ==>
                        var was, m := n.store.rows[path], o.node.store.rows[path];
                        if was.deleted then m == was
                        else
                          && m.deleted && m.deletedAt == deletedAt && m.hash == "" && m.size == 0
                          && m.prevHash == was.hash && m.kind == was.kind
                          && m.mode == was.mode && m.uid == was.uid && m.gid == was.gid))
  {
    hide SanitizePath, SanitizeMode, Tick;
    WriteLands(cfg, n, Delete(path, deletedAt), at);
  }

  /**
   Two edits in sequence on one node, seen by a node that has not pulled in
   between: they are taken cleanly exactly when the reader holds no content, or
   its content is what one of the two edits wrote. Otherwise the reader keeps a
   conflict copy, although nobody edited concurrently.
   */
  lemma TwoEditsInSequence(cfg: Config, n: NodeState, path: string, first: Bytes, second: Bytes, mode: bv32,
                           uid: uint32, gid: uint32, at1: int64, at2: int64, elsewhere: Meta)
    requires WellFiled(n.store.rows) && path in n.store.rows && Norm(elsewhere) == Norm(n.store.rows[path])
    requires var o1 := DoPutFile(cfg, n, path, first, mode, uid, gid, at1);
             && o1.batch != [] && DoPutFile(cfg, o1.node, path, second, mode, uid, gid, at2).batch != []
             && Precedes(elsewhere.version.hlc, Tick(o1.node.clock, at2))
    ensures var o1 := DoPutFile(cfg, n, path, first, mode, uid, gid, at1);
            var o2 := DoPutFile(cfg, o1.node, path, second, mode, uid, gid, at2);
            && Resolve(Some(elsewhere), o2.batch[0]) ==
               if HoldsContent(elsewhere) && elsewhere.hash !in {cfg.hash(first), cfg.hash(second)} then Conflict
               else Accept
  {
    hide SanitizePath, SanitizeMode, Tick;
    WriteLands(cfg, n, PutFile(path, first, mode, uid, gid), at1);
    var one := DoPutFile(cfg, n, path, first, mode, uid, gid, at1);
    AcceptIsSafe(elsewhere, DoPutFile(cfg, one.node, path, second, mode, uid, gid, at2).batch[0]);
  }

  /** A file written once, pulled, and then edited twice before the next pull. */
  lemma EditedTwiceConflicts()
    ensures var cfg := Config("a", 10, content => Decimal(|content|), text => text);
            var one := DoPutFile(cfg, FRESH_NODE, "f", [0], 0, 0, 0, 1);
            var two := DoPutFile(cfg, one.node, "f", [0, 0], 0, 0, 0, 2);
            var three := DoPutFile(cfg, two.node, "f", [0, 0, 0], 0, 0, 0, 3);
            && one.batch != [] && three.batch != []
            && Resolve(Some(one.batch[0]), three.batch[0]).Conflict?
  {
    hide SanitizePath, SanitizeMode, Apply, WithBlob;
    PlainLetter('f');
    assert Decimal(1) == "1" && Decimal(2) == "2" && Decimal(3) == "3";
    var cfg := Config("a", 10, content => Decimal(|content|), text => text);
    var one := DoPutFile(cfg, FRESH_NODE, "f", [0], 0, 0, 0, 1);
    WriteLands(cfg, FRESH_NODE, PutFile("f", [0], 0, 0, 0), 1);
    WriteLands(cfg, one.node, PutFile("f", [0, 0], 0, 0, 0), 2);
  }

  /** A file replaced by a directory, without any other edit. */
  lemma DirOverFileConflicts()
    ensures var cfg := Config("a", 10, content => Decimal(|content|), text => text);
            var one := DoPutFile(cfg, FRESH_NODE, "f", [0], 0, 0, 0, 1);
            var two := DoPutDir(cfg, one.node, "f", 0, 0, 0, 2);
            && one.batch != [] && two.batch != []
            && Resolve(Some(one.batch[0]), two.batch[0]).Conflict?
  {
    PlainLetter('f');
    hide SanitizePath;
    assert Decimal(1) == "1";
    WriteLands(Config("a", 10, content => Decimal(|content|), text => text), FRESH_NODE, PutFile("f", [0], 0, 0, 0), 1);
  }
}
