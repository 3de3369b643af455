/**
 The whole-tree digest that lets two nodes find out in one round trip whether
 they already agree.
 */
module Digest {
  import opened Order
  import opened Hlc
  import opened Entry
  import opened Path
  import opened Store

  const SEP := "\0"

  function Bool(b: bool): string
  {
    if b then "true" else "false"
  }

  /** One row as it is fed to the hash: ten fields, NUL between them, newline after. */
  function RowText(m: Meta): (s: string)
    ensures s != ""
  {
    m.path + SEP + (Decimal(m.kind) + SEP + (m.hash + SEP + (Decimal(m.mode as int) + SEP + (Decimal(m.uid) + SEP
    + (Decimal(m.gid) + SEP + (DecimalInt(m.version.hlc.wall) + SEP + (Decimal(m.version.hlc.counter) + SEP
    + (m.version.origin + SEP + (Bool(m.deleted) + "\n")))))))))
  }

  /** All rows, ordered by path. */
  ghost function Sorted(rows: Rows, paths: set<string>): (all: seq<Meta>)
    requires paths <= rows.Keys
    decreases |paths|
  {
    if paths == {} then []
    else
      LeastIsThere(paths);
      var p :| IsLeast(paths, p);
      [rows[p]] + Sorted(rows, paths - {p})
  }

  ghost function All(rows: Rows): seq<Meta>
  {
    Sorted(rows, rows.Keys)
  }

  function Encode(all: seq<Meta>): string
    decreases |all|
  {
    if all == [] then "" else RowText(all[0]) + Encode(all[1..])
  }

  ghost function DigestOf(sha: string -> string, rows: Rows): string
  {
    sha(Encode(All(rows)))
  }

  /** The fields the digest covers. */
  predicate SameHashedFields(a: Meta, b: Meta)
  {
    && a.path == b.path && a.kind == b.kind && a.hash == b.hash && a.mode == b.mode
    && a.uid == b.uid && a.gid == b.gid && a.version == b.version && a.deleted == b.deleted
  }

  /** Two trees that agree on every hashed field of every row. */
  predicate SameTree(a: Rows, b: Rows)
  {
    a.Keys == b.Keys && forall p | p in a :: SameHashedFields(a[p], b[p])
  }

  predicate NulFree(m: Meta)
  {
    !Has(m.path, NUL) && !Has(m.hash, NUL) && !Has(m.version.origin, NUL)
  }

  /* ----- decoding ----- */

  /** A NUL-free field can be read off the front of a text. */
  lemma FieldIsReadable(f: string, x: string, g: string, y: string)
    requires f + SEP + x == g + SEP + y
    requires NUL !in f && NUL !in g
    ensures f == g && x == y
  {
    var s, t := f + SEP + x, g + SEP + y;
    assert s[|f|] == NUL && t[|g|] == NUL;
    assert forall i | 0 <= i < |f| :: s[i] == f[i] != NUL;
    assert forall i | 0 <= i < |g| :: t[i] == g[i] != NUL;
    assert |f| == |g|;
    assert f == s[..|f|] && g == t[..|g|];
    assert x == s[|f| + 1..] && y == t[|g| + 1..];
  }

  /** The text from the n-th field on, followed by more text. */
  function From(m: Meta, n: nat, more: string): string
    requires n <= 9
    decreases 9 - n
  {
    if n == 9 then Bool(m.deleted) + "\n" + more
    else Field(m, n) + SEP + From(m, n + 1, more)
  }

  function Field(m: Meta, n: nat): string
    requires n < 9
  {
    match n
    case 0 => m.path
    case 1 => Decimal(m.kind)
    case 2 => m.hash
    case 3 => Decimal(m.mode as int)
    case 4 => Decimal(m.uid)
    case 5 => Decimal(m.gid)
    case 6 => DecimalInt(m.version.hlc.wall)
    case 7 => Decimal(m.version.hlc.counter)
    case _ => m.version.origin
  }

  lemma {:induction false} FromAppend(m: Meta, n: nat, more: string)
    requires n <= 9
    ensures From(m, n, "") + more == From(m, n, more)
    decreases 9 - n
  {
    hide Field, Bool;
    if n < 9 {
      FromAppend(m, n + 1, more);
      assert Field(m, n) + SEP + From(m, n + 1, "") + more == Field(m, n) + SEP + (From(m, n + 1, "") + more);
    } else {
      assert Bool(m.deleted) + "\n" + "" + more == Bool(m.deleted) + "\n" + more;
    }
  }

  lemma RowTextIsFrom(m: Meta, more: string)
    ensures RowText(m) + more == From(m, 0, more)
  {
    hide Decimal, DecimalInt, Bool;
    assert From(m, 9, "") == Bool(m.deleted) + "\n";
    assert From(m, 8, "") == m.version.origin + SEP + From(m, 9, "");
    assert From(m, 7, "") == Decimal(m.version.hlc.counter) + SEP + From(m, 8, "");
    assert From(m, 6, "") == DecimalInt(m.version.hlc.wall) + SEP + From(m, 7, "");
    assert From(m, 5, "") == Decimal(m.gid) + SEP + From(m, 6, "");
    assert From(m, 4, "") == Decimal(m.uid) + SEP + From(m, 5, "");
    assert From(m, 3, "") == Decimal(m.mode as int) + SEP + From(m, 4, "");
    assert From(m, 2, "") == m.hash + SEP + From(m, 3, "");
    assert From(m, 1, "") == Decimal(m.kind) + SEP + From(m, 2, "");
    assert From(m, 0, "") == RowText(m);
    FromAppend(m, 0, more);
  }

  lemma FieldIsNulFree(m: Meta, n: nat)
    requires n < 9 && NulFree(m)
    ensures NUL !in Field(m, n)
  {
  }

  lemma {:induction false} FieldsAreReadable(a: Meta, x: string, b: Meta, y: string, n: nat)
    requires n <= 9 && NulFree(a) && NulFree(b)
    requires From(a, n, x) == From(b, n, y)
    ensures forall i | n <= i < 9 :: Field(a, i) == Field(b, i)
    ensures a.deleted == b.deleted && x == y
    decreases 9 - n
  {
    hide Field, NulFree, Bool;
    if n < 9 {
      FieldIsNulFree(a, n);
      FieldIsNulFree(b, n);
      FieldIsReadable(Field(a, n), From(a, n + 1, x), Field(b, n), From(b, n + 1, y));
      FieldsAreReadable(a, x, b, y, n + 1);
    } else {
      BoolIsReadable(a.deleted, x, b.deleted, y);
    }
  }

  lemma BoolIsReadable(a: bool, x: string, b: bool, y: string)
    requires Bool(a) + "\n" + x == Bool(b) + "\n" + y
    ensures a == b && x == y
  {
    var s, t := Bool(a) + "\n" + x, Bool(b) + "\n" + y;
    assert s[0] == Bool(a)[0] && t[0] == Bool(b)[0];
    var k := |Bool(a) + "\n"|;
    assert x == s[k..] && y == t[k..];
  }

  lemma ModeInjective(a: bv32, b: bv32)
    requires a as int == b as int
    ensures a == b
  {
    assert (a as int) as bv32 == a && (b as int) as bv32 == b;
  }

  /** One row can be decoded off the front of an encoded tree. */
  lemma RowIsReadable(a: Meta, x: string, b: Meta, y: string)
    requires NulFree(a) && NulFree(b)
    requires RowText(a) + x == RowText(b) + y
    ensures SameHashedFields(a, b) && x == y
  {
    RowTextIsFrom(a, x);
    RowTextIsFrom(b, y);
    FieldsAreReadable(a, x, b, y, 0);
    assert Field(a, 0) == Field(b, 0) && Field(a, 1) == Field(b, 1) && Field(a, 2) == Field(b, 2);
    assert Field(a, 3) == Field(b, 3) && Field(a, 4) == Field(b, 4) && Field(a, 5) == Field(b, 5);
    assert Field(a, 6) == Field(b, 6) && Field(a, 7) == Field(b, 7) && Field(a, 8) == Field(b, 8);
    DecimalInjective(a.kind, b.kind);
    DecimalInjective(a.mode as int, b.mode as int);
    ModeInjective(a.mode, b.mode);
    DecimalInjective(a.uid, b.uid);
    DecimalInjective(a.gid, b.gid);
    DecimalIntInjective(a.version.hlc.wall, b.version.hlc.wall);
    DecimalInjective(a.version.hlc.counter, b.version.hlc.counter);
  }

  /** An encoded list of rows decodes to one list only. */
  lemma {:induction false} EncodeIsReadable(a: seq<Meta>, b: seq<Meta>)
    requires forall i | 0 <= i < |a| :: NulFree(a[i])
    requires forall i | 0 <= i < |b| :: NulFree(b[i])
    requires Encode(a) == Encode(b)
    ensures |a| == |b| && forall i | 0 <= i < |a| :: SameHashedFields(a[i], b[i])
    decreases |a|
  {
    hide RowText, NulFree, SameHashedFields;
    if a != [] && b != [] {
      RowIsReadable(a[0], Encode(a[1..]), b[0], Encode(b[1..]));
      EncodeIsReadable(a[1..], b[1..]);
    }
  }

  /* ----- sorted lists ----- */

  lemma {:induction false} SortedIsComplete(rows: Rows, paths: set<string>)
    requires paths <= rows.Keys && WellFiled(rows)
    ensures var all := Sorted(rows, paths);
            && (forall i | 0 <= i < |all| :: all[i].path in paths && rows[all[i].path] == all[i])
            && (forall p | p in paths :: rows[p] in all)
    decreases |paths|
  {
    if paths != {} {
      var all := Sorted(rows, paths);
      var p := all[0].path;
      assert p in paths && all[1..] == Sorted(rows, paths - {p}) && all[0] == rows[p];
      SortedIsComplete(rows, paths - {p});
      forall q | q in paths ensures rows[q] in all {
        if q != p {
          assert rows[q] in all[1..];
        }
      }
    }
  }

  predicate IsOrdered(all: seq<Meta>)
  {
    forall i, j | 0 <= i < j < |all| :: Less(all[i].path, all[j].path)
  }

  lemma LeastFirst(paths: set<string>, all: seq<Meta>)
    requires all != [] && IsLeast(paths, all[0].path) && IsOrdered(all[1..])
    requires forall i | 0 <= i < |all[1..]| :: all[1..][i].path in paths && all[1..][i].path != all[0].path
    ensures IsOrdered(all)
  {
    hide Less;
    forall i, j | 0 <= i < j < |all| ensures Less(all[i].path, all[j].path) {
      assert all[j] == all[1..][j - 1] && (i > 0 ==> all[i] == all[1..][i - 1]);
    }
  }

  /** The list has every row once, in path order. */
  lemma {:induction false} SortedIsOrdered(rows: Rows, paths: set<string>)
    requires paths <= rows.Keys && WellFiled(rows)
    ensures var all := Sorted(rows, paths);
            |all| == |paths| && IsOrdered(all)
    decreases |paths|
  {
    hide Less;
    if paths != {} {
      var all := Sorted(rows, paths);
      var p := all[0].path;
      assert IsLeast(paths, p) && all[1..] == Sorted(rows, paths - {p});
      SortedIsOrdered(rows, paths - {p});
      SortedIsComplete(rows, paths - {p});
      LeastFirst(paths, all);
    }
  }

  lemma {:induction false} SameTreeSorts(a: Rows, b: Rows, paths: set<string>)
    requires paths <= a.Keys && SameTree(a, b)
    ensures |Sorted(a, paths)| == |Sorted(b, paths)|
    ensures Encode(Sorted(a, paths)) == Encode(Sorted(b, paths))
    decreases |paths|
  {
    if paths != {} {
      LeastIsThere(paths);
      var p :| IsLeast(paths, p);
      LeastIsUnique(paths, p);
      SameTreeSorts(a, b, paths - {p});
      assert Sorted(a, paths) == [a[p]] + Sorted(a, paths - {p});
      assert Sorted(b, paths) == [b[p]] + Sorted(b, paths - {p});
      assert RowText(a[p]) == RowText(b[p]);
    }
  }

  lemma EqualListsSameTree(a: Rows, b: Rows)
    requires WellFiled(a) && WellFiled(b)
    requires |All(a)| == |All(b)| && forall i | 0 <= i < |All(a)| :: SameHashedFields(All(a)[i], All(b)[i])
    ensures SameTree(a, b)
  {
    SortedIsComplete(a, a.Keys);
    SortedIsComplete(b, b.Keys);
    forall p | p in a ensures p in b && SameHashedFields(a[p], b[p]) {
      var i :| 0 <= i < |All(a)| && All(a)[i] == a[p];
      assert All(b)[i].path == p;
    }
    forall p | p in b ensures p in a {
      var i :| 0 <= i < |All(b)| && All(b)[i] == b[p];
      assert All(a)[i].path == p;
    }
  }

  ghost predicate Injective(sha: string -> string)
  {
    forall x, y | sha(x) == sha(y) :: x == y
  }

  ghost predicate Encodable(rows: Rows)
  {
    WellFiled(rows) && forall p | p in rows :: NulFree(rows[p])
  }

  /**
   Digest faithfulness: equal digests mean equal trees, and equal trees have
   equal digests whatever the feed positions and whatever order rows arrived in.
   */
  lemma DigestIsFaithful(sha: string -> string, a: Rows, b: Rows)
    requires Injective(sha)
    requires Encodable(a) && Encodable(b)
    ensures DigestOf(sha, a) == DigestOf(sha, b) <==> SameTree(a, b)
  {
    hide SameTree, Encode, Sorted, Encodable;
    if SameTree(a, b) {
      SameTreeSameText(a, b);
    }
    if DigestOf(sha, a) == DigestOf(sha, b) {
      SameTextSameTree(a, b);
    }
  }

  lemma SameTreeSameText(a: Rows, b: Rows)
    requires SameTree(a, b)
    ensures Encode(All(a)) == Encode(All(b))
  {
    SameTreeSorts(a, b, a.Keys);
    hide Encode, Sorted;
  }

  lemma SameTextSameTree(a: Rows, b: Rows)
    requires Encodable(a) && Encodable(b) && Encode(All(a)) == Encode(All(b))
    ensures SameTree(a, b)
  {
    hide SameTree, Encode, Sorted;
    SortedIsComplete(a, a.Keys);
    SortedIsComplete(b, b.Keys);
    AllNulFree(a);
    AllNulFree(b);
    hide NulFree, SameHashedFields, All;
    EncodeIsReadable(All(a), All(b));
    EqualListsSameTree(a, b);
  }

  lemma AllNulFree(rows: Rows)
    requires Encodable(rows)
    ensures forall i | 0 <= i < |All(rows)| :: NulFree(All(rows)[i])
  {
    SortedIsComplete(rows, rows.Keys);
    hide Sorted, NulFree;
    forall i | 0 <= i < |All(rows)| ensures NulFree(All(rows)[i]) {
      assert rows[All(rows)[i].path] == All(rows)[i];
    }
  }

  /** The largest feed position held by any row, or 0. */
  function HighestPos(all: seq<Meta>, n: nat): int
    requires n <= |all|
  {
    if n == 0 then 0 else Max(HighestPos(all, n - 1), all[n - 1].pos)
  }

  /** Lists every row, ordered by path. */
  method ListRows(rows: Rows) returns (all: seq<Meta>)
    ensures all == All(rows)
  {
    var left := rows.Keys;
    all := [];
    while left != {}
      invariant left <= rows.Keys
      invariant all + Sorted(rows, left) == All(rows)
      decreases |left|
    {
      LeastIsThere(left);
      var p :| p in left && IsLeast(left, p);
      LeastIsUnique(left, p);
      assert all + ([rows[p]] + Sorted(rows, left - {p})) == all + [rows[p]] + Sorted(rows, left - {p});
      all := all + [rows[p]];
      left := left - {p};
    }
  }

  lemma EncodeStep(all: seq<Meta>, i: nat, text: string)
    requires i < |all|
    ensures text + Encode(all[i..]) == text + RowText(all[i]) + Encode(all[i + 1..])
  {
    assert all[i..][0] == all[i] && all[i..][1..] == all[i + 1..];
    assert text + (RowText(all[i]) + Encode(all[i + 1..])) == text + RowText(all[i]) + Encode(all[i + 1..]);
  }

  /** Computes the digest and the feed head in one pass over the rows in path order. */
  method ComputeDigest(store: Store, sha: string -> string) returns (digest: string, entries: nat, head: int)
    ensures digest == DigestOf(sha, store.rows)
    ensures entries == |All(store.rows)| && (WellFiled(store.rows) ==> entries == |store.rows|)
    ensures head == HighestPos(All(store.rows), entries)
  {
    var all := ListRows(store.rows);
    var text := "";
    head := 0;
    for i := 0 to |all|
      invariant text + Encode(all[i..]) == Encode(all)
      invariant head == HighestPos(all, i)
    {
      EncodeStep(all, i, text);
      text := text + RowText(all[i]);
      head := Max(head, all[i].pos);
    }
    assert text + "" == text;
    digest := sha(text);
    entries := |all|;
    if WellFiled(store.rows) {
      SortedIsOrdered(store.rows, store.rows.Keys);
      assert |store.rows| == |store.rows.Keys|;
    }
  }
}
