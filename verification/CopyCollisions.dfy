/**
 Two inputs at which conflict names collide: a page that carries another node's copy
 of our row, and a second edit within one tick of its author's clock. They show that
 the conditions of BatchRefinement and EditsKept cannot be dropped.
 */
module CopyCollisions {
  import opened Wrappers
  import opened Hlc
  import opened Path
  import opened Entry
  import opened Store
  import opened Node
  import opened AntiEntropy
  import opened NodeFacts
  import opened PageEffects
  import opened EditsKept
  import opened BatchRefinement

  /* ----- a copy overtaken on the page ----- */

  /** Our file at "f", of some content, written by node a. */
  function Lost(hash: string): Meta
  {
    Meta("f", KIND_FILE, hash, "", 1, 0, 0, 0, Version(Timestamp(1, 0), "a"), false, 0, 1)
  }

  /** A directory that conflicts with it. */
  const WINNER := Meta("f", KIND_DIR, "", "", 0, 0, 0, 0, Version(Timestamp(2, 0), "c"), false, 0, 1)

  /** A copy of our file that node c has made. */
  function Theirs(hash: string): Meta
  {
    Meta("f.conflict.a.1", KIND_FILE, hash, "", 1, 0, 0, 0, Version(Timestamp(2, 1), "c"), false, 0, 2)
  }

  function Holder(hash: string): NodeState
  {
    NodeState(StoreState(map["f" := Lost(hash)], 1, map[hash := []], map[]), Timestamp(5, 0))
  }

  const AT_FIVE := Input(5, 5, None)

  /** The node, b, and a hash as hashes are. */
  predicate MayOvertake(cfg: Config, hash: string)
  {
    cfg.node == "b" && cfg.maxFileSize >= 1 && |hash| == 64 && forall c | c in hash :: IsHexDigit(c)
  }

  function Ours(cfg: Config, hash: string): Meta
  {
    CopyOf(cfg, Lost(hash), Timestamp(5, 2))
  }

  lemma CopyIsNamed(hash: string)
    ensures NameOf(Lost(hash)) == Theirs(hash).path
  {
    assert DecimalInt(1) == "1";
  }

  /** A name of three letters or more, with neither slash nor NUL, is a path. */
  lemma NameIsPath(name: string)
    requires 2 < |name| <= MAX_NAME_LEN && !Has(name, '/') && !Has(name, NUL)
    ensures SanitizePath(name).Ok?
  {
    hide Split, Clean;
    SplitPlain(name);
    SanitizeExact(name);
  }

  lemma NamesAreValid(hash: string)
    ensures SanitizePath("f").Ok? && SanitizePath(Theirs(hash).path).Ok?
  {
    hide SanitizePath;
    PlainLetter('f');
    NameIsPath("f.conflict.a.1");
  }

  lemma WinnerIsStored(cfg: Config, hash: string)
    requires MayOvertake(cfg, hash)
    ensures Judge(cfg, Holder(hash).store.rows, Start(Holder(hash)), WINNER, AT_FIVE)
         == Judged(Acc(Timestamp(5, 2), Holder(hash).store.blobs, [Ours(cfg, hash), WINNER], 1, false), Stored)
  {
    NamesAreValid(hash);
    hide SanitizePath, ConflictName;
    assert Valid(cfg, WINNER);
    assert [] + [Ours(cfg, hash)] + [WINNER] == [Ours(cfg, hash), WINNER];
  }

  /** In the page's eyes nothing is filed under the name yet. */
  lemma TheirsIsStored(cfg: Config, hash: string)
    requires MayOvertake(cfg, hash)
    ensures var acc := Acc(Timestamp(5, 2), Holder(hash).store.blobs, [Ours(cfg, hash), WINNER], 1, false);
            Judge(cfg, Holder(hash).store.rows, acc, Theirs(hash), AT_FIVE) ==
            Judged(Acc(Timestamp(5, 3), Holder(hash).store.blobs, [Ours(cfg, hash), WINNER, Theirs(hash)], 2, false),
                   Stored)
  {
    NamesAreValid(hash);
    hide SanitizePath, ConflictName;
    assert Valid(cfg, Theirs(hash));
    assert [Ours(cfg, hash), WINNER] + [Theirs(hash)] == [Ours(cfg, hash), WINNER, Theirs(hash)];
  }

  /** One at a time, our copy is there already, and later. */
  lemma TheirsIsSkipped(cfg: Config, hash: string, rows: Rows, acc: Acc)
    requires MayOvertake(cfg, hash) && acc.clock == Timestamp(5, 2)
    requires Theirs(hash).path in rows && rows[Theirs(hash).path].version == Version(Timestamp(5, 2), "b")
    ensures Judge(cfg, rows, acc, Theirs(hash), AT_FIVE)
         == Judged(Advance(acc.(clock := Timestamp(5, 3)), Theirs(hash)), Skipped)
  {
    NamesAreValid(hash);
    hide SanitizePath, ConflictName;
    assert Valid(cfg, Theirs(hash));
  }

  /** The page, committed at once. */
  lemma PageTakesTheirs(cfg: Config, hash: string)
    requires MayOvertake(cfg, hash)
    ensures var a := ApplyRemote(cfg, Holder(hash), [WINNER, Theirs(hash)], [AT_FIVE, AT_FIVE]);
            var name, rows := Theirs(hash).path, a.node.store.rows;
            name in rows && rows[name].version == Theirs(hash).version
  {
    var n, page, inputs := Holder(hash), [WINNER, Theirs(hash)], [AT_FIVE, AT_FIVE];
    WinnerIsStored(cfg, hash);
    TheirsIsStored(cfg, hash);
    hide Judge, Holder, MayOvertake, Ours, Theirs;
    assert AccAt(cfg, n, page, inputs, 0) == Start(n);
    assert AccAt(cfg, n, page, inputs, 1) == Judge(cfg, n.store.rows, Start(n), page[0], inputs[0]).acc;
    var acc := AccAt(cfg, n, page, inputs, 1);
    assert AccAt(cfg, n, page, inputs, 2) == Judge(cfg, n.store.rows, acc, page[1], inputs[1]).acc;
    RowAfterPage(cfg, n, page, inputs, Theirs(hash).path);
    assert ApplyRemote(cfg, n, page, inputs).batch == [Ours(cfg, hash), WINNER, Theirs(hash)];
  }

  /** The same page, entry by entry. */
  lemma SerialKeepsOurs(cfg: Config, hash: string)
    requires MayOvertake(cfg, hash)
    ensures var s := OneAtATime(cfg, Holder(hash), [WINNER, Theirs(hash)], [AT_FIVE, AT_FIVE], 2);
            var name, rows := Theirs(hash).path, s.node.store.rows;
            name in rows && rows[name].version == Ours(cfg, hash).version
  {
    var n, page, inputs := Holder(hash), [WINNER, Theirs(hash)], [AT_FIVE, AT_FIVE];
    var name := Theirs(hash).path;
    CopyIsNamed(hash);
    WinnerIsStored(cfg, hash);
    SingleEntry(cfg, n, WINNER, AT_FIVE);
    var batch := [Ours(cfg, hash), WINNER];
    assert batch[0].path == name && batch[1].path == "f" != name;
    UpsertAt(n.store.rows, batch, n.store.head, 2, name);
    var mid := OneAtATime(cfg, n, page, inputs, 1).node;
    assert OneAtATime(cfg, n, page, inputs, 0).node == n;
    assert mid == ApplyRemote(cfg, n, [WINNER], [AT_FIVE]).node;
    TheirsIsSkipped(cfg, hash, mid.store.rows, Start(mid));
    SingleEntry(cfg, mid, Theirs(hash), AT_FIVE);
    hide Judge;
    assert Apply(mid.store, []).rows == mid.store.rows;
  }

  /** The page's paths are distinct, but our copy's name is further down. */
  lemma NameIsOnPage(hash: string)
    requires hash != ""
    ensures var rows, page := Holder(hash).store.rows, [WINNER, Theirs(hash)];
            && InConflict(rows, WINNER) && WINNER.path != Theirs(hash).path
            && Theirs(hash).path == NameOf(rows[WINNER.path]) && !NoCollisions(rows, page)
  {
    CopyIsNamed(hash);
    var rows, page := Holder(hash).store.rows, [WINNER, Theirs(hash)];
    hide ConflictName;
    assert InConflict(rows, page[0]) && NameOf(rows[page[0].path]) == page[1].path;
    assert |page[0].path| == 1 && |page[1].path| == 14;
  }

  /**
   A page on which batch and serial differ: a conflicting entry, and after it the copy
   that another node has made of the same row of ours. Committed at once, the page
   leaves their copy; entry by entry, our own, which is the later one, stays. The page's
   paths are distinct, so this is the case that NoCollisions is about.
   */
  lemma CopyIsOvertaken(cfg: Config, hash: string)
    requires MayOvertake(cfg, hash)
    ensures var n, page, inputs := Holder(hash), [WINNER, Theirs(hash)], [AT_FIVE, AT_FIVE];
            var a, s, name := ApplyRemote(cfg, n, page, inputs), OneAtATime(cfg, n, page, inputs, 2), Theirs(hash).path;
            && InConflict(n.store.rows, WINNER) && name == NameOf(n.store.rows[WINNER.path]) && name != WINNER.path
            && !NoCollisions(n.store.rows, page)
            && name in a.node.store.rows && name in s.node.store.rows
            && After(s.node.store.rows[name].version, a.node.store.rows[name].version)
  {
    NameIsOnPage(hash);
    PageTakesTheirs(cfg, hash);
    SerialKeepsOurs(cfg, hash);
    assert Theirs(hash).version == Version(Timestamp(2, 1), "c");
    assert Ours(cfg, hash).version == Version(Timestamp(5, 2), cfg.node);
    hide ApplyRemote, OneAtATime, InConflict, NameOf, NoCollisions, Holder, Theirs, Ours;
  }

  /* ----- a name used twice ----- */

  /** Under the name of our file there is a copy of the edit before, made at the same wall time. */
  function Reuser(first: string, second: string): NodeState
  {
    var earlier := Theirs(first).(version := Version(Timestamp(1, 2), "b"), pos := 2);
    var now := Lost(second).(version := Version(Timestamp(1, 1), "a"));
    NodeState(StoreState(map["f" := now, earlier.path := earlier], 2, map[first := [], second := []], map[]),
              Timestamp(5, 0))
  }

  lemma TwoUpserts(rows: Rows, a: Meta, b: Meta, base: int)
    ensures Upsert(rows, [a, b], base, 2) == rows[a.path := a.(pos := base + 1)][b.path := b.(pos := base + 2)]
  {
    assert Upsert(rows, [a, b], base, 0) == rows;
    assert Upsert(rows, [a, b], base, 1) == rows[a.path := a.(pos := base + 1)];
  }

  /** Whatever is filed under the name of a row that loses is replaced by that row's copy. */
  lemma CopyReplaces(cfg: Config, n: NodeState, e: Meta, input: Input)
    requires InConflict(n.store.rows, e) && NameOf(n.store.rows[e.path]) != e.path
    requires Judge(cfg, n.store.rows, Start(n), e, input).fate.Stored?
    ensures var lost, after := n.store.rows[e.path], ApplyRemote(cfg, n, [e], [input]).node.store.rows;
            var name := NameOf(lost);
            && after.Keys == n.store.rows.Keys + {name}
            && after[name].hash == lost.hash && after[name].prevHash == ""
            && after[e.path].hash == e.hash && after[e.path].prevHash == e.prevHash
            && forall p | p in n.store.rows && p != name && p != e.path :: after[p] == n.store.rows[p]
  {
    SingleEntry(cfg, n, e, input);
    JudgeExtendsBatch(cfg, n.store.rows, Start(n), e, input);
    var copy := Judge(cfg, n.store.rows, Start(n), e, input).acc.batch[0];
    hide Judge, ConflictName, Valid, Merge, Tick;
    assert Judge(cfg, n.store.rows, Start(n), e, input).acc.batch == [copy, e];
    assert copy == CopyOf(cfg, n.store.rows[e.path], copy.version.hlc);
    TwoUpserts(n.store.rows, copy, e, n.store.head);
  }

  lemma SecondLoses(cfg: Config, first: string, second: string)
    requires cfg.node == "b" && cfg.maxFileSize >= 1 && second != ""
    ensures var rows := Reuser(first, second).store.rows;
            && InConflict(rows, WINNER)
            && Judge(cfg, rows, Start(Reuser(first, second)), WINNER, AT_FIVE).fate.Stored?
  {
    NamesAreValid(first);
    LengthOfName(first);
    hide SanitizePath, ConflictName, Theirs;
    assert Valid(cfg, WINNER);
  }

  lemma LengthOfName(hash: string)
    ensures |Theirs(hash).path| == 14 && |"f"| == 1
  {
  }

  lemma NameIsLonger(l: Meta)
    ensures |NameOf(l)| > |l.path|
  {
  }

  /**
   A later copy replaces an earlier one of the same name. The author has edited a file
   twice at one wall time, so that only the counters of the versions differ; the name
   of a copy leaves the counter out. We hold a copy of the first edit when the second
   loses to a directory: its copy goes to the same name, and of the first edit nothing
   is left.
   */
  lemma LaterCopyReplacesEarlier(cfg: Config, first: string, second: string)
    requires cfg.node == "b" && cfg.maxFileSize >= 1 && first != "" && second != "" && first != second
    ensures var n := Reuser(first, second);
            var lost, after := n.store.rows[WINNER.path], ApplyRemote(cfg, n, [WINNER], [AT_FIVE]).node.store.rows;
            && NameOf(lost) in n.store.rows && HoldsContent(n.store.rows[NameOf(lost)])
            && n.store.rows[NameOf(lost)].hash == first && !EditKept(n.store.rows[NameOf(lost)], after)
            && forall p | p in after :: first !in {after[p].hash, after[p].prevHash}
  {
    var n := Reuser(first, second);
    CopyIsNamed(first);
    LengthOfName(first);
    SecondLoses(cfg, first, second);
    var lost, name := n.store.rows[WINNER.path], Theirs(first).path;
    assert NameOf(lost) == name;
    NameIsLonger(n.store.rows[name]);
    hide NameOf, ConflictName, Judge, ApplyRemote, InConflict, Theirs;
    CopyReplaces(cfg, n, WINNER, AT_FIVE);
  }
}
