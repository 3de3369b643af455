/**
 The mirrored directory, as the file system calls of the mirror see it: a map from
 cluster-relative path to what stands there.
 */
module Disk {
  import opened Hlc
  import opened Path
  import opened Entry

  /** Other stands for anything that is not replicated: a symlink, a socket, a device. */
  datatype DiskNode =
    | File(content: Bytes, mode: bv32, uid: uint32, gid: uint32)
    | Directory(mode: bv32, uid: uint32, gid: uint32)
    | Other

  type DiskMap = map<string, DiskNode>

  /** The process: its umask, its own user and group, and which owners it may give a file. */
  datatype Env = Env(umask: bv32, uid: uint32, gid: uint32, mayChown: (uint32, uint32) -> bool)

  function Ancestors(p: string): set<string>
  {
    set i | 0 <= i < |p| && IsBelow(p, p[..i]) :: p[..i]
  }

  lemma AncestorsExact(p: string, a: string)
    ensures a in Ancestors(p) <==> IsBelow(p, a)
  {
    if IsBelow(p, a) {
      assert a == p[..|a|];
    }
  }

  lemma BelowIsTransitive(p: string, q: string, r: string)
    requires IsBelow(p, q) && IsBelow(q, r)
    ensures IsBelow(p, r)
  {
    assert p[..|r|] == q[..|r|];
  }

  /** Whatever stands below a path stands below directories only. */
  ghost predicate IsTree(disk: DiskMap)
  {
    forall p, a | p in disk && IsBelow(p, a) :: a in disk && disk[a].Directory?
  }

  /** A proper ancestor of p is not a directory. */
  predicate Blocked(disk: DiskMap, p: string)
  {
    exists a | a in Ancestors(p) :: a in disk && !disk[a].Directory?
  }

  predicate PlainMode(mode: bv32)
  {
    mode & PERM_BITS == mode
  }

  /** The disk with those of dirs that are missing made into directories. */
  function WithDirs(env: Env, disk: DiskMap, dirs: set<string>, mode: bv32): DiskMap
  {
    disk + map a | a in dirs && a !in disk :: Directory(mode & !env.umask, env.uid, env.gid)
  }

  datatype Made = Made(disk: DiskMap) | AlreadyThere | Refused

  /** MkdirAll below an os.Root, which takes no mode bits beyond 0777. */
  function MkdirAll(env: Env, disk: DiskMap, p: string, mode: bv32): Made
  {
    if !PlainMode(mode) || Blocked(disk, p) then Refused
    else if p in disk && !disk[p].Directory? then AlreadyThere
    else Made(WithDirs(env, disk, Ancestors(p) + {p}, mode))
  }

  function Chmod(node: DiskNode, mode: bv32): DiskNode
  {
    if node.Other? then node else node.(mode := SanitizeMode(mode))
  }

  function Chown(node: DiskNode, uid: uint32, gid: uint32): DiskNode
  {
    if node.Other? then node else node.(uid := uid, gid := gid)
  }

  /** rmdir and unlink in one: a directory goes only when nothing is left in it. */
  function Remove(disk: DiskMap, p: string): DiskMap
  {
    if p in disk && forall q | q in disk :: !IsBelow(q, p) then disk - {p} else disk
  }

  /* ----- scratch files ----- */

  const TMP_PREFIX := ".dcfs-tmp-"
  const DIR_MODE: bv32 := 0x1ED

  predicate IsScratch(p: string)
  {
    TMP_PREFIX <= Base(p)
  }

  lemma {:induction false} BaseIsSuffix(p: string)
    ensures |Base(p)| <= |p| && p[|p| - |Base(p)|..] == Base(p) && !Has(Base(p), '/')
    decreases |p|
  {
    if p != "" {
      BaseIsSuffix(p[1..]);
      var rest := Split(p[1..]);
      if p[0] != '/' && |rest| == 1 {
        LoneElement(p[1..]);
        assert Split(p) == [[p[0]] + rest[0]];
        assert p == [p[0]] + p[1..];
      } else {
        assert Base(p) == Base(p[1..]);
        assert p[|p| - |Base(p)|..] == p[1..][|p| - 1 - |Base(p)|..];
      }
    }
  }

  lemma {:induction false} LoneElement(p: string)
    requires |Split(p)| == 1
    ensures Split(p) == [p]
    decreases |p|
  {
    if p != "" {
      LoneElement(p[1..]);
      assert p == [p[0]] + p[1..];
    }
  }

  /** Where the content of p is written before it is renamed into place. */
  function ScratchOf(p: string): string
  {
    BaseIsSuffix(p);
    p[..|p| - |Base(p)|] + (TMP_PREFIX + Base(p))
  }

  lemma ScratchIsScratch(p: string)
    ensures IsScratch(ScratchOf(p)) && Base(ScratchOf(p)) == TMP_PREFIX + Base(p)
  {
    BaseIsSuffix(p);
    var head := p[..|p| - |Base(p)|];
    SplitAppend(head, Base(p));
    assert p == head + Base(p);
    SplitAppend(head, TMP_PREFIX + Base(p));
  }

  /** The scratch file gets a name of at most 255 bytes. */
  predicate NameFits(p: string)
  {
    |TMP_PREFIX| + |Base(p)| <= MAX_NAME_LEN
  }

  /** The disk after writing to a scratch file and renaming it into place, and whether that worked. */
  function WriteAtomic(env: Env, disk: DiskMap, p: string, content: Bytes, mode: bv32): (bool, DiskMap)
  {
    var ready, scratch := WithDirs(env, disk, Ancestors(p), DIR_MODE), ScratchOf(p);
    if !PlainMode(mode) || !NameFits(p) || (scratch in ready && !ready[scratch].File?) then (false, ready)
    else
      var blank := if scratch in ready then ready[scratch] else File([], mode & !env.umask, env.uid, env.gid);
      (true, (ready - {scratch})[p := blank.(content := content)])
  }
}
