/** What a render leaves on disk. */
module RenderFacts {
  import opened Path
  import opened Entry
  import opened Store
  import opened Node
  import opened Disk
  import opened Mirror

  /** The disk shows the entry: its kind, its content, its mode. */
  predicate InPlace(cfg: Config, disk: DiskMap, p: string, e: Meta)
  {
    && p in disk
    && (e.kind == KIND_DIR ==> disk[p].Directory?)
    && (e.kind == KIND_FILE ==> disk[p].File? && cfg.hash(disk[p].content) == e.hash)
    && (e.kind == KIND_DIR || e.kind == KIND_FILE)
    && disk[p].mode == SanitizeMode(e.mode)
  }

  /**
   A file that has to be written can be: its content is held, its mode is of permissions
   only, and its scratch file has an acceptable name and nothing else in its place.
   */
  predicate CanWrite(disk: DiskMap, blobs: map<string, Bytes>, p: string, e: Meta)
  {
    && e.hash in blobs && e.mode & 0x1FF == e.mode && |Base(p)| <= 245
    && (ScratchOf(p) in disk ==> disk[ScratchOf(p)].File?)
  }

  /** Nothing on disk or in the store stands in the way of rendering the entry. */
  predicate CanPlace(cfg: Config, disk: DiskMap, blobs: map<string, Bytes>, p: string, e: Meta)
  {
    && (forall a | a in Ancestors(p) && a in disk :: disk[a].Directory?)
    && ((e.kind == KIND_DIR && e.mode & 0x1FF == e.mode && (p in disk ==> disk[p].Directory?)) ||
        (e.kind == KIND_FILE && (p in disk ==> disk[p].File?) &&
         ((p in disk && cfg.hash(disk[p].content) == e.hash) || CanWrite(disk, blobs, p, e))))
  }

  lemma CanWriteExactly(disk: DiskMap, blobs: map<string, Bytes>, p: string, e: Meta)
    ensures CanWrite(disk, blobs, p, e) <==>
            && e.hash in blobs && PlainMode(e.mode) && NameFits(p)
            && (ScratchOf(p) in disk ==> disk[ScratchOf(p)].File?)
  {
    hide ScratchOf, Base;
  }

  /** The same in the render's own terms. */
  lemma CanPlaceExactly(cfg: Config, disk: DiskMap, blobs: map<string, Bytes>, p: string, e: Meta)
    ensures CanWrite(disk, blobs, p, e) <==>
            && e.hash in blobs && PlainMode(e.mode) && NameFits(p)
            && (ScratchOf(p) in disk ==> disk[ScratchOf(p)].File?)
    ensures CanPlace(cfg, disk, blobs, p, e) <==>
            && !Blocked(disk, p)
            && ((e.kind == KIND_DIR && PlainMode(e.mode) && (p in disk ==> disk[p].Directory?)) ||
                (e.kind == KIND_FILE && (p in disk ==> disk[p].File?) &&
                 (SameContent(cfg, disk, p, e) || CanWrite(disk, blobs, p, e))))
  {
    hide CanWrite, ScratchOf, Ancestors, NameFits;
    CanWriteExactly(disk, blobs, p, e);
  }

  /** The render of p succeeds in showing it. */
  predicate Shows(cfg: Config, disk: DiskMap, blobs: map<string, Bytes>, p: string, e: Meta)
  {
    CanPlace(cfg, disk, blobs, p, e) || InPlace(cfg, disk, p, e)
  }

  /**
   A path a render may handle: it has a name, and neither it nor a directory above it is
   named like a scratch file.
   */
  predicate Carried(p: string)
  {
    Base(p) != "" && !IsScratch(p) && forall a | a in Ancestors(p) :: !IsScratch(a)
  }

  /** No live file lies above a live path, live paths are carried, and modes are as local writes store them. */
  ghost predicate SaneTree(rows: Rows)
  {
    forall p | IsLive(rows, p) ::
      && Carried(p)
      && SanitizeMode(rows[p].mode) == rows[p].mode
      && forall a | a in Ancestors(p) :: IsLive(rows, a) ==> rows[a].kind == KIND_DIR
  }

  predicate SameKind(a: DiskNode, b: DiskNode)
  {
    a.File? == b.File? && a.Directory? == b.Directory? && a.Other? == b.Other?
  }

  /* ----- one entry ----- */

  /** Rendering p touches p, scratch files, and missing directories above p; nothing else. */
  ghost predicate Contained(disk: DiskMap, disk': DiskMap, p: string)
  {
    && (forall q | q in disk && q != p && !IsScratch(q) :: q in disk' && disk'[q] == disk[q])
    && (forall q | q in disk' && q !in disk && q != p ::
          q in Ancestors(p) && disk'[q].Directory? && PlainMode(disk'[q].mode))
    && (forall q | q in disk' && IsScratch(q) :: q in disk && disk'[q] == disk[q])
    && (forall q | q in disk && q !in disk' :: disk[q].File? && q == ScratchOf(p))
    && (p in disk ==> p in disk' && SameKind(disk'[p], disk[p]))
  }

  lemma PlainMask(mode: bv32, umask: bv32)
    requires PlainMode(mode)
    ensures PlainMode(mode & !umask)
  {
  }

  lemma WithDirsIs(env: Env, disk: DiskMap, dirs: set<string>, mode: bv32)
    requires PlainMode(mode)
    ensures var disk' := WithDirs(env, disk, dirs, mode);
            && disk'.Keys == disk.Keys + dirs
            && (forall q | q in disk :: disk'[q] == disk[q])
            && (forall q | q in dirs && q !in disk :: disk'[q].Directory? && PlainMode(disk'[q].mode))
  {
    PlainMask(mode, env.umask);
    hide PlainMode;
  }

  predicate DirsFor(disk: DiskMap, p: string, dirs: set<string>)
  {
    && (dirs == Ancestors(p) || dirs == Ancestors(p) + {p})
    && (p in dirs && p in disk ==> disk[p].Directory?)
  }

  lemma DirsKeepTree(env: Env, disk: DiskMap, p: string, dirs: set<string>, mode: bv32)
    requires IsTree(disk) && !Blocked(disk, p) && PlainMode(mode) && DirsFor(disk, p, dirs)
    ensures IsTree(WithDirs(env, disk, dirs, mode))
    ensures forall a | a in Ancestors(p) ::
              a in WithDirs(env, disk, dirs, mode) && WithDirs(env, disk, dirs, mode)[a].Directory?
  {
    WithDirsIs(env, disk, dirs, mode);
    hide PlainMode, WithDirs, Ancestors, IsBelow;
    var disk' := WithDirs(env, disk, dirs, mode);
    forall q, a | q in disk' && IsBelow(q, a) ensures a in disk' && disk'[a].Directory? {
      if q !in disk {
        AncestorsExact(p, q);
        if q != p {
          BelowIsTransitive(p, q, a);
        }
        AncestorsExact(p, a);
      }
    }
  }

  lemma DirsAreContained(env: Env, disk: DiskMap, p: string, dirs: set<string>, mode: bv32)
    requires Carried(p) && PlainMode(mode) && DirsFor(disk, p, dirs)
    ensures Contained(disk, WithDirs(env, disk, dirs, mode), p)
  {
    WithDirsIs(env, disk, dirs, mode);
    hide PlainMode, WithDirs, Ancestors, IsBelow, IsScratch;
  }

  lemma MetaApplied(env: Env, v: View, p: string, e: Meta)
    requires IsTree(v.disk) && Carried(p)
    ensures var v' := ApplyMeta(env, v, p, e);
            && IsTree(v'.disk) && Contained(v.disk, v'.disk, p)
            && v'.disk.Keys == v.disk.Keys
            && (p in v.disk && !v.disk[p].Other? ==> v'.disk[p].mode == SanitizeMode(e.mode))
            && (p in v.disk && v.disk[p].File? ==> v'.disk[p].content == v.disk[p].content)
            && v'.writes == v.writes
  {
    hide Base, SanitizeMode;
  }

  /**
   Metadata, exactly: the mode always, with the bits that are replicated; the owner while
   this process may still change owners, and may change to this one. Being refused once
   ends the trying.
   */
  lemma MetaIsExact(env: Env, v: View, p: string, e: Meta)
    requires p in v.disk && !v.disk[p].Other?
    ensures var v', was := ApplyMeta(env, v, p, e), v.disk[p];
            && p in v'.disk && SameKind(v'.disk[p], was) && v'.disk[p].mode == SanitizeMode(e.mode)
            && (was.File? ==> v'.disk[p].content == was.content)
            && (if v.canChown && env.mayChown(e.uid, e.gid) then v'.disk[p].uid == e.uid && v'.disk[p].gid == e.gid
                else v'.disk[p].uid == was.uid && v'.disk[p].gid == was.gid)
            && (v'.canChown <==> v.canChown && env.mayChown(e.uid, e.gid))
            && v'.disk.Keys == v.disk.Keys && v'.writes == v.writes
  {
    hide SanitizeMode;
  }

  lemma ContainedTrans(a: DiskMap, b: DiskMap, c: DiskMap, p: string)
    requires Contained(a, b, p) && Contained(b, c, p) && !IsScratch(p)
    ensures Contained(a, c, p)
  {
    hide Base, IsBelow, PlainMode;
  }

  lemma TreeIsNotBlocked(disk: DiskMap, p: string)
    requires IsTree(disk) && p in disk
    ensures !Blocked(disk, p)
  {
    forall a | a in Ancestors(p) ensures a in disk && disk[a].Directory? {
      AncestorsExact(p, a);
    }
  }

  /** What rendering one entry achieves. */
  ghost predicate Rendered(cfg: Config, blobs: map<string, Bytes>, v: View, v': View, p: string, e: Meta)
  {
    && IsTree(v'.disk) && Contained(v.disk, v'.disk, p)
    && (p in v'.disk && p !in v.disk ==> if e.kind == KIND_DIR then v'.disk[p].Directory? else v'.disk[p].File?)
    && (InPlace(cfg, v'.disk, p, e) <==> Shows(cfg, v.disk, blobs, p, e))
  }

  lemma NothingRendered(cfg: Config, blobs: map<string, Bytes>, v: View, p: string, e: Meta)
    requires IsTree(v.disk) && !CanPlace(cfg, v.disk, blobs, p, e)
    ensures Rendered(cfg, blobs, v, v, p, e)
  {
    hide CanPlace, InPlace, IsTree;
  }

  lemma DirRendered(cfg: Config, env: Env, blobs: map<string, Bytes>, v: View, p: string, e: Meta)
    requires IsTree(v.disk) && Carried(p) && e.kind == KIND_DIR && SanitizeMode(e.mode) == e.mode
    ensures Rendered(cfg, blobs, v, RenderDir(env, v, p, e), p, e)
  {
    hide IsTree, Contained, Blocked, PlainMode, WithDirs, Carried, IsScratch, ApplyMeta, SanitizeMode, CanWrite,
      CanPlace, IsBelow;
    CanPlaceExactly(cfg, v.disk, blobs, p, e);
    var made := MkdirAll(env, v.disk, p, e.mode);
    if made.Refused? {
      NothingRendered(cfg, blobs, v, p, e);
    } else if made.AlreadyThere? {
      MetaApplied(env, v, p, e);
      KindKept(v.disk, RenderDir(env, v, p, e).disk, p);
    } else {
      var dirs, v1 := Ancestors(p) + {p}, v.(disk := made.disk);
      DirsKeepTree(env, v.disk, p, dirs, e.mode);
      DirsAreContained(env, v.disk, p, dirs, e.mode);
      WithDirsIs(env, v.disk, dirs, e.mode);
      MetaApplied(env, v1, p, e);
      PlainPath(p);
      ContainedTrans(v.disk, v1.disk, RenderDir(env, v, p, e).disk, p);
      KindKept(v1.disk, RenderDir(env, v, p, e).disk, p);
    }
  }

  lemma PlainPath(p: string)
    requires Carried(p)
    ensures !IsScratch(p) && forall a | a in Ancestors(p) :: !IsScratch(a)
  {
  }

  lemma KindKept(disk: DiskMap, disk': DiskMap, p: string)
    requires Contained(disk, disk', p) && p in disk
    ensures p in disk' && SameKind(disk'[p], disk[p])
  {
    hide IsScratch, PlainMode, Ancestors;
  }

  /** The rename puts the file in place and takes its scratch file away. */
  lemma FileWritten(env: Env, disk: DiskMap, p: string, content: Bytes, mode: bv32)
    requires IsTree(disk) && Carried(p) && !Blocked(disk, p) && (p in disk ==> disk[p].File?)
    ensures var (ok, disk') := WriteAtomic(env, disk, p, content, mode);
            && IsTree(disk') && Contained(disk, disk', p)
            && (ok <==> PlainMode(mode) && NameFits(p) && (ScratchOf(p) in disk ==> disk[ScratchOf(p)].File?))
            && (ok ==> p in disk' && disk'[p].File? && disk'[p].content == content)
            && (!ok ==> (p in disk' <==> p in disk) && (p in disk ==> disk'[p] == disk[p]))
  {
    var dirs := Ancestors(p);
    assert p !in dirs;
    assert PlainMode(DIR_MODE);
    DirsKeepTree(env, disk, p, dirs, DIR_MODE);
    DirsAreContained(env, disk, p, dirs, DIR_MODE);
    WithDirsIs(env, disk, dirs, DIR_MODE);
    ScratchIsScratch(p);
    PlainPath(p);
    var ready, scratch := WithDirs(env, disk, dirs, DIR_MODE), ScratchOf(p);
    var (ok, disk') := WriteAtomic(env, disk, p, content, mode);
    hide IsScratch, PlainMode, WithDirs, Carried, Blocked, ScratchOf, NameFits;
    if ok {
      Renamed(ready, disk', p, scratch);
      ContainedTrans(disk, ready, disk', p);
    }
  }

  lemma Renamed(disk: DiskMap, disk': DiskMap, p: string, scratch: string)
    requires IsTree(disk) && Carried(p) && IsScratch(scratch) && scratch == ScratchOf(p)
    requires scratch in disk ==> disk[scratch].File?
    requires p in disk ==> disk[p].File?
    requires forall a | a in Ancestors(p) :: a in disk && disk[a].Directory?
    requires p in disk' && disk'[p].File? && disk' == (disk - {scratch})[p := disk'[p]]
    ensures IsTree(disk') && Contained(disk, disk', p)
  {
    PlainPath(p);
    hide IsScratch, Carried, Ancestors, IsBelow, PlainMode, ScratchOf;
    forall q, a | q in disk' && IsBelow(q, a) ensures a in disk' && disk'[a].Directory? {
      if q == p {
        AncestorsExact(p, a);
      } else {
        assert a in disk && disk[a].Directory?;
      }
    }
  }

  lemma FileRendered(cfg: Config, env: Env, blobs: map<string, Bytes>, v: View, p: string, e: Meta)
    requires IsTree(v.disk) && Carried(p) && e.kind == KIND_FILE && BlobsAddressed(cfg, blobs)
    ensures Rendered(cfg, blobs, v, RenderFile(cfg, env, blobs, v, p, e), p, e)
  {
    hide IsTree, Contained, Blocked, PlainMode, WithDirs, Carried, IsScratch, ApplyMeta, SanitizeMode, IsBelow,
      WriteAtomic, ScratchOf, NameFits, Ancestors, BlobsAddressed;
    CanPlaceExactly(cfg, v.disk, blobs, p, e);
    var v' := RenderFile(cfg, env, blobs, v, p, e);
    if SameContent(cfg, v.disk, p, e) {
      TreeIsNotBlocked(v.disk, p);
      MetaApplied(env, v, p, e);
      KindKept(v.disk, v'.disk, p);
    } else if Blocked(v.disk, p) || (p in v.disk && !v.disk[p].File?) || e.hash !in blobs {
      NothingRendered(cfg, blobs, v, p, e);
    } else {
      assert cfg.hash(blobs[e.hash]) == e.hash by {
        Addressed(cfg, blobs, e.hash);
      }
      FileWritten(env, v.disk, p, blobs[e.hash], e.mode);
      var (ok, disk) := WriteAtomic(env, v.disk, p, blobs[e.hash], e.mode);
      if ok {
        var v1 := v.(disk := disk, writes := v.writes + 1);
        MetaApplied(env, v1, p, e);
        PlainPath(p);
        ContainedTrans(v.disk, disk, v'.disk, p);
        KindKept(disk, v'.disk, p);
      }
    }
  }

  lemma MetaStaysAt(env: Env, v: View, p: string, e: Meta, q: string)
    requires q != p
    ensures var after := ApplyMeta(env, v, p, e).disk;
            (q in after <==> q in v.disk) && (q in v.disk ==> after[q] == v.disk[q])
  {
    hide Chmod, Chown;
  }

  /** What directories made on the way to p look like. */
  predicate OwnParents(env: Env, disk: DiskMap, disk': DiskMap, p: string, mode: bv32)
  {
    forall q | q in disk' && q !in disk && q != p ::
      IsBelow(p, q) && disk'[q] == Directory(mode & !env.umask, env.uid, env.gid)
  }

  lemma NewDirsAreOurs(env: Env, disk: DiskMap, p: string, mode: bv32)
    ensures OwnParents(env, disk, WithDirs(env, disk, Ancestors(p), mode), p, mode)
    ensures OwnParents(env, disk, WithDirs(env, disk, Ancestors(p) + {p}, mode), p, mode)
  {
    forall q ensures q in Ancestors(p) <==> IsBelow(p, q) {
      AncestorsExact(p, q);
    }
    hide Ancestors, IsBelow;
  }

  lemma MetaKeepsParents(env: Env, disk: DiskMap, v: View, p: string, e: Meta, mode: bv32)
    requires OwnParents(env, disk, v.disk, p, mode)
    ensures OwnParents(env, disk, ApplyMeta(env, v, p, e).disk, p, mode)
  {
    forall q | q != p { MetaStaysAt(env, v, p, e, q); }
    hide ApplyMeta, IsBelow;
  }

  lemma WriteKeepsParents(env: Env, disk: DiskMap, p: string, content: Bytes, mode: bv32)
    ensures OwnParents(env, disk, WriteAtomic(env, disk, p, content, mode).1, p, 0x1ED)
  {
    NewDirsAreOurs(env, disk, p, 0x1ED);
    hide Ancestors, IsBelow, PlainMode, NameFits, ScratchOf, WithDirs;
  }

  /**
   The directories a render makes on the way belong to this process. Above a directory
   they get its mode, above a file 0755, both less the umask.
   */
  lemma ParentsBelongToUs(cfg: Config, env: Env, blobs: map<string, Bytes>, v: View, p: string, e: Meta)
    ensures OwnParents(env, v.disk, RenderDir(env, v, p, e).disk, p, e.mode)
    ensures OwnParents(env, v.disk, RenderFile(cfg, env, blobs, v, p, e).disk, p, 0x1ED)
  {
    hide ApplyMeta, OwnParents, WriteAtomic, WithDirs, Ancestors, Blocked, PlainMode;
    NoNewParents(env, v.disk, p, e.mode);
    NoNewParents(env, v.disk, p, 0x1ED);
    MetaKeepsParents(env, v.disk, v, p, e, e.mode);
    MetaKeepsParents(env, v.disk, v, p, e, 0x1ED);
    NewDirsAreOurs(env, v.disk, p, e.mode);
    var made := WithDirs(env, v.disk, Ancestors(p) + {p}, e.mode);
    MetaKeepsParents(env, v.disk, v.(disk := made), p, e, e.mode);
    if e.hash in blobs {
      WriteKeepsParents(env, v.disk, p, blobs[e.hash], e.mode);
      var v1 := v.(disk := WriteAtomic(env, v.disk, p, blobs[e.hash], e.mode).1, writes := v.writes + 1);
      MetaKeepsParents(env, v.disk, v1, p, e, 0x1ED);
    }
  }

  lemma NoNewParents(env: Env, disk: DiskMap, p: string, mode: bv32)
    ensures OwnParents(env, disk, disk, p, mode)
  {
  }

  lemma Addressed(cfg: Config, blobs: map<string, Bytes>, h: string)
    requires BlobsAddressed(cfg, blobs) && h in blobs
    ensures cfg.hash(blobs[h]) == h
  {
  }

  /* ----- entry after entry ----- */

  /** Some live path lies below q. */
  ghost predicate AboveLive(rows: Rows, q: string)
  {
    exists p | p in rows :: IsLive(rows, p) && q in Ancestors(p)
  }

  /** A path that was not there before: a directory made on the way to a live path, or a live path rendered. */
  ghost predicate MadeByRender(rows: Rows, done: set<string>, node: DiskNode, q: string)
  {
    || (node.Directory? && PlainMode(node.mode) && AboveLive(rows, q))
    || (q in done && IsLive(rows, q) && (node.Directory? || rows[q].kind != KIND_DIR))
  }

  /** How the disk stands once the entries in done have been handled. */
  ghost predicate Kept(rows: Rows, before: DiskMap, now: DiskMap, done: set<string>)
  {
    && IsTree(now)
    && (forall q | q in before && !IsScratch(q) :: q in now && SameKind(now[q], before[q]))
    && (forall q | q in before && !IsScratch(q) && q !in done :: now[q] == before[q])
    && (forall q | q in now && q !in before :: MadeByRender(rows, done, now[q], q))
    && (forall q | q in now && IsScratch(q) :: q in before && now[q] == before[q])
    && (forall q | q in before && q !in now :: before[q].File? && WrittenThrough(rows, q))
  }

  /** q is the scratch file of a live path. */
  ghost predicate WrittenThrough(rows: Rows, q: string)
  {
    exists p | p in rows :: IsLive(rows, p) && ScratchOf(p) == q
  }

  ghost predicate AllShown(cfg: Config, n: NodeState, before: DiskMap, now: DiskMap, done: set<string>)
  {
    forall p | p in done && p in n.store.rows ::
      InPlace(cfg, now, p, n.store.rows[p]) <==> Shows(cfg, before, n.store.blobs, p, n.store.rows[p])
  }

  lemma BlockedStays(rows: Rows, before: DiskMap, now: DiskMap, done: set<string>, p: string)
    requires Kept(rows, before, now, done) && IsLive(rows, p) && SaneTree(rows)
    ensures Blocked(now, p) <==> Blocked(before, p)
  {
    SaneAt(rows, p);
    hide SaneTree, IsScratch, Ancestors, IsTree, PlainMode, Carried;
    if Blocked(before, p) {
      var a :| a in Ancestors(p) && a in before && !before[a].Directory?;
      assert a in now && SameKind(now[a], before[a]);
    }
    if Blocked(now, p) {
      var a :| a in Ancestors(p) && a in now && !now[a].Directory?;
      assert a !in before ==> MadeByRender(rows, done, now[a], a);
    }
  }

  lemma SaneAt(rows: Rows, p: string)
    requires IsLive(rows, p) && SaneTree(rows)
    ensures Carried(p) && !IsScratch(p) && SanitizeMode(rows[p].mode) == rows[p].mode
    ensures forall a | a in Ancestors(p) :: !IsScratch(a) && (IsLive(rows, a) ==> rows[a].kind == KIND_DIR)
  {
    hide SanitizeMode, IsScratch, Ancestors;
  }

  lemma AboveLiveIsDir(rows: Rows, q: string)
    requires IsLive(rows, q) && AboveLive(rows, q) && SaneTree(rows)
    ensures rows[q].kind == KIND_DIR
  {
    var p :| p in rows && IsLive(rows, p) && q in Ancestors(p);
    SaneAt(rows, p);
  }

  /** Nothing rendered so far has changed what stands in the way of p. */
  lemma ShowsStays(cfg: Config, n: NodeState, before: DiskMap, now: DiskMap, done: set<string>, p: string)
    requires Kept(n.store.rows, before, now, done) && p !in done && IsLive(n.store.rows, p) && SaneTree(n.store.rows)
    ensures var e := n.store.rows[p]; Shows(cfg, now, n.store.blobs, p, e) <==> Shows(cfg, before, n.store.blobs, p, e)
  {
    var rows, e := n.store.rows, n.store.rows[p];
    BlockedStays(rows, before, now, done, p);
    SaneAt(rows, p);
    ScratchIsScratch(p);
    hide SaneTree, Blocked, Carried, IsScratch, ScratchOf, NameFits, IsTree, Ancestors, SanitizeMode;
    if p in now && p !in before {
      assert MadeByRender(rows, done, now[p], p);
      AboveLiveIsDir(rows, p);
      NewDirShows(cfg, n, before, now, done, p);
    }
  }

  /** A directory made in passing at a live path is never what keeps it from being shown. */
  lemma NewDirShows(cfg: Config, n: NodeState, before: DiskMap, now: DiskMap, done: set<string>, p: string)
    requires Kept(n.store.rows, before, now, done) && IsLive(n.store.rows, p) && SaneTree(n.store.rows)
    requires n.store.rows[p].kind == KIND_DIR
    requires p in now && p !in before && now[p].Directory? && PlainMode(now[p].mode)
    ensures var e := n.store.rows[p];
            && (InPlace(cfg, now, p, e) ==> CanPlace(cfg, before, n.store.blobs, p, e))
            && (Shows(cfg, now, n.store.blobs, p, e) <==> Shows(cfg, before, n.store.blobs, p, e))
  {
    BlockedStays(n.store.rows, before, now, done, p);
    SaneAt(n.store.rows, p);
    TreeIsNotBlocked(now, p);
    hide SaneTree, Blocked, Carried, IsScratch, ScratchOf, NameFits, IsTree, Ancestors, SanitizeMode, CanWrite,
      PlainMode, MadeByRender;
  }

  lemma OneRendered(cfg: Config, env: Env, inflight: set<string>, n: NodeState, v: View, p: string)
    requires IsTree(v.disk) && p in n.store.rows && p !in inflight && Carried(p)
    requires SanitizeMode(n.store.rows[p].mode) == n.store.rows[p].mode
    requires BlobsAddressed(cfg, n.store.blobs)
    ensures Rendered(cfg, n.store.blobs, v, RenderOne(cfg, env, inflight, n, v, p), p, n.store.rows[p])
  {
    hide IsTree, Carried, SanitizeMode, BlobsAddressed, Rendered, RenderDir, RenderFile;
    var e := n.store.rows[p];
    if e.kind == KIND_DIR {
      DirRendered(cfg, env, n.store.blobs, v, p, e);
    } else if e.kind == KIND_FILE {
      FileRendered(cfg, env, n.store.blobs, v, p, e);
    } else {
      NothingRendered(cfg, n.store.blobs, v, p, e);
    }
  }

  lemma KeptGrows(rows: Rows, before: DiskMap, now: DiskMap, now': DiskMap, done: set<string>, p: string)
    requires Kept(rows, before, now, done) && IsLive(rows, p) && Carried(p)
    requires IsTree(now') && Contained(now, now', p)
    requires p in now' && p !in now ==> if rows[p].kind == KIND_DIR then now'[p].Directory? else now'[p].File?
    ensures Kept(rows, before, now', done + {p})
  {
    PlainPath(p);
    hide IsTree, Carried, IsScratch, Ancestors, PlainMode, ScratchOf, IsLive;
    forall q | q in before && q !in now' ensures before[q].File? && WrittenThrough(rows, q) {
      if q in now {
        assert IsLive(rows, p) && ScratchOf(p) == q;
      }
    }
    forall q | q in now' && q !in before ensures MadeByRender(rows, done + {p}, now'[q], q) {
      NewStaysMade(rows, before, now, now', done, p, q);
    }
    hide WrittenThrough, MadeByRender;
  }

  lemma NewStaysMade(rows: Rows, before: DiskMap, now: DiskMap, now': DiskMap, done: set<string>, p: string, q: string)
    requires Kept(rows, before, now, done) && IsLive(rows, p) && !IsScratch(p) && Contained(now, now', p)
    requires p in now' && p !in now ==> if rows[p].kind == KIND_DIR then now'[p].Directory? else now'[p].File?
    requires q in now' && q !in before
    ensures MadeByRender(rows, done + {p}, now'[q], q)
  {
    hide IsTree, IsScratch, Ancestors, PlainMode, ScratchOf, WrittenThrough;
    if q == p {
      assert p in now ==> MadeByRender(rows, done, now[p], p);
    } else if q in now {
      assert now'[q] == now[q];
      assert MadeByRender(rows, done, now[q], q);
    } else {
      assert AboveLive(rows, q);
    }
  }

  /** A path shown, or not shown, stays that way while others are rendered. */
  lemma ShownStays(cfg: Config, n: NodeState, before: DiskMap, now: DiskMap, now': DiskMap, done: set<string>,
                   p: string, q: string)
    requires Kept(n.store.rows, before, now, done) && Kept(n.store.rows, before, now', done + {p})
    requires Contained(now, now', p) && q != p
    requires IsLive(n.store.rows, p) && IsLive(n.store.rows, q) && SaneTree(n.store.rows)
    requires var e := n.store.rows[q]; InPlace(cfg, now, q, e) <==> Shows(cfg, before, n.store.blobs, q, e)
    ensures var e := n.store.rows[q]; InPlace(cfg, now', q, e) <==> Shows(cfg, before, n.store.blobs, q, e)
  {
    SaneAt(n.store.rows, q);
    hide SaneTree, Blocked, Carried, IsScratch, ScratchOf, NameFits, IsTree, Ancestors, SanitizeMode, CanWrite,
      PlainMode, MadeByRender, CanPlace;
    if q !in now && q in now' {
      assert AboveLive(n.store.rows, q);
      AboveLiveIsDir(n.store.rows, q);
      NewDirShows(cfg, n, before, now', done + {p}, q);
    }
  }

  function DoneOf(paths: seq<string>, k: nat, inflight: set<string>): set<string>
    requires k <= |paths|
  {
    (set i | 0 <= i < k :: paths[i]) - inflight
  }

  lemma {:induction false} WritesShow(cfg: Config, env: Env, inflight: set<string>, n: NodeState, v: View,
                                      paths: seq<string>, k: nat)
    requires k <= |paths| && IsTree(v.disk) && SaneTree(n.store.rows) && BlobsAddressed(cfg, n.store.blobs)
    requires forall i | 0 <= i < |paths| :: IsLive(n.store.rows, paths[i])
    requires forall i, j | 0 <= i < j < |paths| :: paths[i] != paths[j]
    ensures var now, done := RenderUpTo(cfg, env, inflight, n, v, paths, k).disk, DoneOf(paths, k, inflight);
            Kept(n.store.rows, v.disk, now, done) && AllShown(cfg, n, v.disk, now, done)
  {
    hide IsTree, SaneTree, BlobsAddressed, Carried, IsScratch, Ancestors, RenderOne, SanitizeMode, PlainMode,
      MadeByRender, InPlace, Shows, Contained;
    if k == 0 {
    } else {
      WritesShow(cfg, env, inflight, n, v, paths, k - 1);
      hide Kept;
      var p, w := paths[k - 1], RenderUpTo(cfg, env, inflight, n, v, paths, k - 1);
      var w' := RenderUpTo(cfg, env, inflight, n, v, paths, k);
      var done, done' := DoneOf(paths, k - 1, inflight), DoneOf(paths, k, inflight);
      if p in inflight {
        assert done' == done;
        SkipsInflight(cfg, env, inflight, n, w, p);
      } else {
        assert done' == done + {p} && p !in done;
        StepShows(cfg, env, inflight, n, v.disk, w, done, p);
      }
    }
  }

  lemma SkipsInflight(cfg: Config, env: Env, inflight: set<string>, n: NodeState, v: View, p: string)
    requires p in inflight
    ensures RenderOne(cfg, env, inflight, n, v, p) == v
  {
  }

  lemma StepShows(cfg: Config, env: Env, inflight: set<string>, n: NodeState, before: DiskMap, w: View,
                  done: set<string>, p: string)
    requires Kept(n.store.rows, before, w.disk, done) && AllShown(cfg, n, before, w.disk, done)
    requires IsLive(n.store.rows, p) && p !in inflight && p !in done
    requires forall q | q in done :: IsLive(n.store.rows, q)
    requires SaneTree(n.store.rows) && BlobsAddressed(cfg, n.store.blobs)
    ensures var now' := RenderOne(cfg, env, inflight, n, w, p).disk;
            Kept(n.store.rows, before, now', done + {p}) && AllShown(cfg, n, before, now', done + {p})
  {
    hide IsTree, SaneTree, BlobsAddressed, Carried, IsScratch, Ancestors, RenderOne, SanitizeMode, PlainMode,
      MadeByRender, InPlace, Shows, Contained, Kept, Rendered;
    KeptIsTree(n.store.rows, before, w.disk, done);
    SaneAt(n.store.rows, p);
    OneRendered(cfg, env, inflight, n, w, p);
    RenderedParts(cfg, n.store.blobs, w, RenderOne(cfg, env, inflight, n, w, p), p, n.store.rows[p]);
    var now' := RenderOne(cfg, env, inflight, n, w, p).disk;
    KeptGrows(n.store.rows, before, w.disk, now', done, p);
    ShowsStays(cfg, n, before, w.disk, done, p);
    forall q | q in done && q in n.store.rows
      ensures InPlace(cfg, now', q, n.store.rows[q]) <==> Shows(cfg, before, n.store.blobs, q, n.store.rows[q])
    {
      ShownStays(cfg, n, before, w.disk, now', done, p, q);
    }
  }

  lemma RenderedParts(cfg: Config, blobs: map<string, Bytes>, v: View, v': View, p: string, e: Meta)
    requires Rendered(cfg, blobs, v, v', p, e)
    ensures IsTree(v'.disk) && Contained(v.disk, v'.disk, p)
    ensures p in v'.disk && p !in v.disk ==> if e.kind == KIND_DIR then v'.disk[p].Directory? else v'.disk[p].File?
    ensures InPlace(cfg, v'.disk, p, e) <==> Shows(cfg, v.disk, blobs, p, e)
  {
    hide IsTree, Contained, InPlace, Shows;
  }

  lemma KeptIsTree(rows: Rows, before: DiskMap, now: DiskMap, done: set<string>)
    requires Kept(rows, before, now, done)
    ensures IsTree(now)
  {
    hide IsTree;
  }
}
