/** The state a render leaves: what it shows, what it leaves alone, what it removes. */
module RenderPost {
  import opened Order
  import opened Path
  import opened Store
  import opened Node
  import opened Disk
  import opened Mirror
  import opened RenderFacts

  /* ----- removal ----- */

  /** p is doomed and so is everything below it on disk. */
  ghost predicate Clears(disk: DiskMap, doomed: set<string>, p: string)
  {
    p in doomed && forall q | q in disk && IsBelow(q, p) :: q in doomed
  }

  /** A file or directory of the mirror's that the tree has a tombstone for and nobody claims. */
  predicate Condemned(rows: Rows, inflight: set<string>, disk: DiskMap, p: string)
  {
    && p in disk && (disk[p].File? || disk[p].Directory?) && !(".dcfs-tmp-" <= Base(p)) && SanitizePath(p).Ok?
    && p !in inflight && p in rows && rows[p].deleted
  }

  /** p is condemned, and so is everything below it on disk. */
  ghost predicate Vanishes(rows: Rows, inflight: set<string>, disk: DiskMap, p: string)
  {
    Condemned(rows, inflight, disk, p) && forall q | q in disk && IsBelow(q, p) :: Condemned(rows, inflight, disk, q)
  }

  lemma VanishesExactly(rows: Rows, inflight: set<string>, disk: DiskMap, p: string)
    ensures Clears(disk, Doomed(rows, inflight, disk), p) <==> Vanishes(rows, inflight, disk, p)
  {
    hide IsBelow, SanitizePath, Base;
    forall q ensures q in Doomed(rows, inflight, disk) <==> Condemned(rows, inflight, disk, q) {
    }
    hide Doomed;
  }

  lemma BelowIsGreater(q: string, p: string)
    requires IsBelow(q, p)
    ensures Less(p, q)
  {
    PrefixIsLess(p, q[|p|..]);
    assert p + q[|p|..] == q;
  }

  lemma ClearsBelow(disk: DiskMap, doomed: set<string>, p: string, q: string)
    requires Clears(disk, doomed, p) && q in disk && IsBelow(q, p)
    ensures Clears(disk, doomed, q)
  {
    forall r | r in disk && IsBelow(r, q) ensures r in doomed {
      BelowIsTransitive(r, q, p);
    }
  }

  predicate IsDescending(list: seq<string>)
  {
    forall i, j | 0 <= i < j < |list| :: Less(list[j], list[i])
  }

  /** In descending order, everything below a path comes before it. */
  lemma BelowComesFirst(list: seq<string>, k: nat, q: string)
    requires IsDescending(list) && k < |list| && q in list && IsBelow(q, list[k])
    ensures q in list[..k]
  {
    BelowIsGreater(q, list[k]);
    var i :| 0 <= i < |list| && list[i] == q;
    LessAsymmetric(list[k], q);
    if i < k {
      assert list[..k][i] == q;
    }
  }

  lemma NotYet(list: seq<string>, k: nat)
    requires IsDescending(list) && k < |list|
    ensures list[k] !in list[..k]
  {
    forall i | 0 <= i < k ensures list[i] != list[k] {
      LessAsymmetric(list[k], list[i]);
    }
  }

  /** A directory goes exactly when all that is below it goes: descending order empties it first. */
  lemma {:induction false} RemovesExactly(disk: DiskMap, doomed: set<string>, list: seq<string>, k: nat)
    requires k <= |list| && IsDescending(list) && forall p :: p in list <==> p in doomed
    requires doomed <= disk.Keys
    ensures var now := RemoveUpTo(disk, list, k);
            && (forall p | p in now :: p in disk && now[p] == disk[p])
            && (forall p | p in disk :: p in now <==> !(p in list[..k] && Clears(disk, doomed, p)))
  {
    hide IsBelow, Clears, IsDescending;
    if k > 0 {
      RemovesExactly(disk, doomed, list, k - 1);
      var was, x := RemoveUpTo(disk, list, k - 1), list[k - 1];
      NotYet(list, k - 1);
      assert list[..k] == list[..k - 1] + [x];
      assert x in was;
      EmptiedExactly(disk, was, doomed, list, k - 1);
    }
  }

  lemma EmptiedExactly(disk: DiskMap, was: DiskMap, doomed: set<string>, list: seq<string>, k: nat)
    requires k < |list| && IsDescending(list) && forall p :: p in list <==> p in doomed
    requires forall p | p in was :: p in disk
    requires forall p | p in disk :: p in was <==> !(p in list[..k] && Clears(disk, doomed, p))
    ensures (forall q | q in was :: !IsBelow(q, list[k])) <==> Clears(disk, doomed, list[k])
  {
    hide IsBelow, IsDescending;
    var x := list[k];
    if Clears(disk, doomed, x) {
      forall q | q in disk && IsBelow(q, x) ensures q !in was {
        ClearsBelow(disk, doomed, x, q);
        BelowComesFirst(list, k, q);
      }
    } else {
      assert x in doomed;
    }
  }

  lemma RemovalByDoom(rows: Rows, inflight: set<string>, disk: DiskMap)
    ensures var now, doomed := RemoveGone(rows, inflight, disk), Doomed(rows, inflight, disk);
            && (forall p | p in now :: p in disk && now[p] == disk[p])
            && (forall p | p in disk :: p in now <==> !Clears(disk, doomed, p))
  {
    var doomed := Doomed(rows, inflight, disk);
    var list := Descending(doomed);
    DescendingIsSorted(doomed);
    RemovesExactly(disk, doomed, list, |list|);
    assert list[..|list|] == list;
    hide Clears;
    forall p | p in disk && Clears(disk, doomed, p) ensures p in list {
      ClearsIsDoomed(disk, doomed, p);
    }
  }

  /** What removal leaves, whatever the disk. */
  lemma RemovalIsExact(rows: Rows, inflight: set<string>, disk: DiskMap)
    ensures var now := RemoveGone(rows, inflight, disk);
            && (forall p | p in now :: p in disk && now[p] == disk[p])
            && (forall p | p in disk :: p in now <==> !Vanishes(rows, inflight, disk, p))
  {
    RemovalByDoom(rows, inflight, disk);
    forall p | p in disk
      ensures Clears(disk, Doomed(rows, inflight, disk), p) <==> Vanishes(rows, inflight, disk, p)
    {
      VanishesExactly(rows, inflight, disk, p);
    }
    hide RemoveGone, Doomed, Clears, Vanishes;
  }

  lemma ClearsIsDoomed(disk: DiskMap, doomed: set<string>, p: string)
    requires Clears(disk, doomed, p)
    ensures p in doomed
  {
  }

  /* ----- the whole render ----- */

  /** The writing half of a render. */
  lemma WritingShows(cfg: Config, env: Env, inflight: set<string>, n: NodeState, v: View)
    requires IsTree(v.disk) && SaneTree(n.store.rows) && BlobsAddressed(cfg, n.store.blobs)
    ensures var now, done := WriteAll(cfg, env, inflight, n, v).disk, LivePaths(n.store.rows) - inflight;
            Kept(n.store.rows, v.disk, now, done) && AllShown(cfg, n, v.disk, now, done)
  {
    var live := LivePaths(n.store.rows);
    var paths := Ascending(live);
    AscendingIsSorted(live);
    forall i, j | 0 <= i < j < |paths| ensures paths[i] != paths[j] {
      LessAsymmetric(paths[i], paths[j]);
    }
    forall i | 0 <= i < |paths| ensures IsLive(n.store.rows, paths[i]) {
      assert paths[i] in live;
    }
    hide Less, Kept, AllShown, SaneTree, IsTree, BlobsAddressed;
    WritesShow(cfg, env, inflight, n, v, paths, |paths|);
    assert DoneOf(paths, |paths|, inflight) == live - inflight;
  }

  /** Every live path that nobody claims shows its entry on disk exactly when nothing stood in its way. */
  ghost predicate LiveShown(cfg: Config, n: NodeState, inflight: set<string>, before: DiskMap, after: DiskMap)
  {
    forall p | IsLive(n.store.rows, p) && p !in inflight ::
      InPlace(cfg, after, p, n.store.rows[p]) <==> Shows(cfg, before, n.store.blobs, p, n.store.rows[p])
  }

  /** Paths the tree has no row for stay as they were; all that is new is a directory on the way to a live path. */
  ghost predicate StrangersKept(rows: Rows, before: DiskMap, after: DiskMap)
  {
    && (forall q | q in before && q !in rows && !IsScratch(q) :: q in after && after[q] == before[q])
    && (forall q | q in after && q !in before && !IsLive(rows, q) :: after[q].Directory? && AboveLive(rows, q))
  }

  /** A tombstoned path with no live path below it is gone exactly when it, and all below it on disk, is condemned. */
  ghost predicate TombstonesGone(rows: Rows, inflight: set<string>, before: DiskMap, after: DiskMap)
  {
    forall p | p in before && IsTombstone(rows, p) && !IsScratch(p) && !AboveLive(rows, p) ::
      p !in after <==> Vanishes(rows, inflight, before, p)
  }

  /**
   Render post-state. With no live file above a live path and no path named like a
   scratch file, a render shows every live path that is not in flight exactly when
   nothing stood in its way, leaves every path without a row untouched, and removes
   a tombstoned path exactly when everything below it on disk is to be removed too.
   */
  lemma RenderPostState(cfg: Config, env: Env, inflight: set<string>, n: NodeState, v: View)
    requires IsTree(v.disk) && SaneTree(n.store.rows) && BlobsAddressed(cfg, n.store.blobs)
    ensures var after := Render(cfg, env, inflight, n, v).disk;
            && IsTree(after)
            && LiveShown(cfg, n, inflight, v.disk, after)
            && StrangersKept(n.store.rows, v.disk, after)
            && TombstonesGone(n.store.rows, inflight, v.disk, after)
  {
    hide IsTree, SaneTree, BlobsAddressed, WriteAll, RemoveGone, Doomed, Kept, AllShown, Clears, InPlace, Shows,
      IsScratch, LiveShown, StrangersKept, TombstonesGone;
    WritingShows(cfg, env, inflight, n, v);
    var rows, now := n.store.rows, WriteAll(cfg, env, inflight, n, v).disk;
    RemovalByDoom(rows, inflight, now);
    RemovalShows(cfg, n, inflight, v.disk, now);
    RemovalKeepsStrangers(rows, inflight, v.disk, now);
    RemovalOfTombstones(rows, inflight, v.disk, now);
    RemovalKeepsTree(rows, inflight, v.disk, now);
  }

  lemma RemovalKeepsTree(rows: Rows, inflight: set<string>, before: DiskMap, now: DiskMap)
    requires Kept(rows, before, now, LivePaths(rows) - inflight)
    ensures IsTree(RemoveGone(rows, inflight, now))
  {
    RemovalByDoom(rows, inflight, now);
    KeptIsTree(rows, before, now, LivePaths(rows) - inflight);
    var after, doomed := RemoveGone(rows, inflight, now), Doomed(rows, inflight, now);
    hide RemoveGone, Doomed, IsBelow, Kept;
    forall p, a | p in after && IsBelow(p, a) ensures a in after && after[a].Directory? {
      if Clears(now, doomed, a) {
        ClearsBelow(now, doomed, a, p);
      }
    }
  }

  lemma RemovalShows(cfg: Config, n: NodeState, inflight: set<string>, before: DiskMap, now: DiskMap)
    requires AllShown(cfg, n, before, now, LivePaths(n.store.rows) - inflight)
    ensures LiveShown(cfg, n, inflight, before, RemoveGone(n.store.rows, inflight, now))
  {
    var rows, doomed := n.store.rows, Doomed(n.store.rows, inflight, now);
    RemovalByDoom(rows, inflight, now);
    hide RemoveGone, Shows, SanitizeMode, IsScratch, Walked;
    forall p | IsLive(rows, p) && p !in inflight
      ensures InPlace(cfg, RemoveGone(rows, inflight, now), p, rows[p])
         <==> Shows(cfg, before, n.store.blobs, p, rows[p])
    {
      assert p in LivePaths(rows) - inflight;
      assert p !in doomed;
    }
  }

  lemma RemovalKeepsStrangers(rows: Rows, inflight: set<string>, before: DiskMap, now: DiskMap)
    requires Kept(rows, before, now, LivePaths(rows) - inflight)
    ensures StrangersKept(rows, before, RemoveGone(rows, inflight, now))
  {
    RemovalByDoom(rows, inflight, now);
    var after := RemoveGone(rows, inflight, now);
    hide RemoveGone, IsScratch, IsTree, Walked, PlainMode, AboveLive;
    forall q | q in after && q !in before && !IsLive(rows, q) ensures after[q].Directory? && AboveLive(rows, q) {
      assert MadeByRender(rows, LivePaths(rows) - inflight, now[q], q);
    }
  }

  lemma RemovalOfTombstones(rows: Rows, inflight: set<string>, before: DiskMap, now: DiskMap)
    requires Kept(rows, before, now, LivePaths(rows) - inflight) && SaneTree(rows)
    ensures TombstonesGone(rows, inflight, before, RemoveGone(rows, inflight, now))
  {
    RemovalByDoom(rows, inflight, now);
    var was, doomed := Doomed(rows, inflight, before), Doomed(rows, inflight, now);
    hide RemoveGone, IsTree, Doomed, Kept, SaneTree, Clears;
    forall p | p in before && IsTombstone(rows, p) && !IsScratch(p) && !AboveLive(rows, p)
      ensures p in now && (Clears(now, doomed, p) <==> Vanishes(rows, inflight, before, p))
    {
      SameClearance(rows, inflight, before, now, p);
      VanishesExactly(rows, inflight, before, p);
    }
  }

  /** A scratch file lies below what its target lies below. */
  lemma ScratchIsBeside(x: string, p: string)
    requires IsBelow(ScratchOf(x), p) && Base(x) != ""
    ensures IsBelow(x, p)
  {
    BaseIsSuffix(x);
    ScratchIsScratch(x);
    var k, scratch := |x| - |Base(x)|, ScratchOf(x);
    assert scratch == x[..k] + (TMP_PREFIX + Base(x));
    var name := TMP_PREFIX + Base(x);
    assert !Has(name, '/');
    assert forall i | k <= i < |scratch| :: scratch[i] == name[i - k];
    assert |p| < k;
    hide Base;
    assert x[..|p|] == scratch[..|p|] && x[|p|] == scratch[|p|];
  }

  lemma NotWrittenThrough(rows: Rows, p: string, q: string)
    requires SaneTree(rows) && !AboveLive(rows, p) && IsBelow(q, p)
    ensures !WrittenThrough(rows, q)
  {
    forall x | x in rows && IsLive(rows, x) ensures ScratchOf(x) != q {
      SaneAt(rows, x);
      if ScratchOf(x) == q {
        ScratchIsBeside(x, p);
        AncestorsExact(x, p);
      }
    }
  }

  /** Writing changes nothing below a path that has no live path below it. */
  lemma NothingNewBelow(rows: Rows, inflight: set<string>, before: DiskMap, now: DiskMap, p: string, q: string)
    requires Kept(rows, before, now, LivePaths(rows) - inflight) && SaneTree(rows)
    requires !AboveLive(rows, p) && IsBelow(q, p)
    ensures q in now <==> q in before
    ensures q in now ==> now[q] == before[q]
  {
    NotWrittenThrough(rows, p, q);
    hide SaneTree, IsScratch, IsTree, PlainMode, IsBelow, Ancestors;
    if IsLive(rows, q) {
      AncestorsExact(q, p);
    } else if AboveLive(rows, q) {
      var x :| x in rows && IsLive(rows, x) && q in Ancestors(x);
      AncestorsExact(x, q);
      BelowIsTransitive(x, q, p);
      AncestorsExact(x, p);
    }
    hide AboveLive, IsLive;
  }

  lemma SameClearance(rows: Rows, inflight: set<string>, before: DiskMap, now: DiskMap, p: string)
    requires Kept(rows, before, now, LivePaths(rows) - inflight) && SaneTree(rows)
    requires p in before && IsTombstone(rows, p) && !IsScratch(p) && !AboveLive(rows, p)
    ensures p in now
    ensures Clears(now, Doomed(rows, inflight, now), p) <==> Clears(before, Doomed(rows, inflight, before), p)
  {
    assert p in now && now[p] == before[p];
    forall q | IsBelow(q, p)
      ensures q in now <==> q in before
      ensures q in Doomed(rows, inflight, now) <==> q in Doomed(rows, inflight, before)
    {
      NothingNewBelow(rows, inflight, before, now, p, q);
    }
    hide Kept, IsScratch, IsBelow, IsTombstone;
    assert p in Doomed(rows, inflight, now) <==> p in Doomed(rows, inflight, before);
    hide Doomed;
  }
}
