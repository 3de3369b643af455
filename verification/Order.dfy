/**
 Go compares strings byte by byte (`<` on strings, strings.Compare, SQL's
 ORDER BY on TEXT). This module gives that order and its laws.
 */
module Order {

  predicate Less(a: string, b: string)
    decreases |a|
  {
    if b == "" then false
    else if a == "" then true
    else if a[0] != b[0] then a[0] < b[0]
    else Less(a[1..], b[1..])
  }

  lemma {:induction false} LessIrreflexive(a: string)
    ensures !Less(a, a)
    decreases |a|
  {
    if a != "" {
      LessIrreflexive(a[1..]);
    }
  }

  lemma {:induction false} LessTransitive(a: string, b: string, c: string)
    requires Less(a, b) && Less(b, c)
    ensures Less(a, c)
    decreases |a|
  {
    if a != "" && b != "" && c != "" && a[0] == b[0] == c[0] {
      LessTransitive(a[1..], b[1..], c[1..]);
    }
  }

  lemma {:induction false} LessTotal(a: string, b: string)
    ensures Less(a, b) || a == b || Less(b, a)
    decreases |a|
  {
    if a != "" && b != "" && a[0] == b[0] {
      LessTotal(a[1..], b[1..]);
      assert a == [a[0]] + a[1..] && b == [b[0]] + b[1..];
    }
  }

  lemma LessAsymmetric(a: string, b: string)
    requires Less(a, b)
    ensures !Less(b, a) && a != b
  {
    LessIrreflexive(a);
    if Less(b, a) {
      LessTransitive(a, b, a);
    }
  }

  /** a and b agree up to i, and a has the smaller byte there. */
  predicate SmallerAt(a: string, b: string, i: nat)
  {
    i < |a| && i < |b| && a[..i] == b[..i] && a[i] < b[i]
  }

  /** Byte order: the smaller byte decides where two strings first differ, and a prefix comes first. */
  lemma {:induction false} LessIsByteOrder(a: string, b: string)
    ensures Less(a, b) <==> (|a| < |b| && b[..|a|] == a) || exists i: nat :: SmallerAt(a, b, i)
    decreases |a|
  {
    if a != "" && b != "" {
      var a', b' := a[1..], b[1..];
      LessIsByteOrder(a', b');
      if a[0] == b[0] {
        assert |a| <= |b| ==> b[..|a|] == [b[0]] + b'[..|a| - 1];
        assert a == [a[0]] + a';
        forall i: nat ensures SmallerAt(a', b', i) <==> SmallerAt(a, b, i + 1) {
          if i < |a'| && i < |b'| {
            assert a[..i + 1] == [a[0]] + a'[..i] && b[..i + 1] == [b[0]] + b'[..i];
            assert a[..i + 1][1..] == a'[..i] && b[..i + 1][1..] == b'[..i];
          }
        }
        assert !SmallerAt(a, b, 0);
        if i: nat :| SmallerAt(a, b, i) {
          assert SmallerAt(a', b', i - 1);
        }
      } else if a[0] < b[0] {
        assert SmallerAt(a, b, 0);
      } else {
        forall i: nat ensures !SmallerAt(a, b, i) {
          if 0 < i < |a| && i < |b| {
            assert a[..i][0] == a[0] && b[..i][0] == b[0];
          }
        }
        assert |a| < |b| ==> b[..|a|][0] != a[0];
      }
    }
  }

  /** A string sorts before every proper extension of it. */
  lemma {:induction false} PrefixIsLess(a: string, b: string)
    requires b != ""
    ensures Less(a, a + b)
    decreases |a|
  {
    if a != "" {
      PrefixIsLess(a[1..], b);
      assert (a + b)[1..] == a[1..] + b;
    }
  }

  /** The least string of a non-empty set exists and is unique. */
  lemma {:induction false} LeastExists(s: set<string>) returns (least: string)
    requires s != {}
    ensures least in s
    ensures forall x | x in s :: x == least || Less(least, x)
  {
    var y :| y in s;
    if s == {y} {
      least := y;
    } else {
      var rest := s - {y};
      assert s == rest + {y};
      var m := LeastExists(rest);
      LessTotal(m, y);
      if Less(y, m) {
        least := y;
        forall x | x in s ensures x == least || Less(least, x) {
          if x != y && x != m {
            assert x in rest;
            LessTransitive(y, m, x);
          }
        }
      } else {
        least := m;
        forall x | x in s ensures x == least || Less(least, x) {
          if x != y {
            assert x in rest;
          }
        }
      }
    }
  }

  predicate IsLeast(s: set<string>, p: string)
  {
    p in s && forall x | x in s :: x == p || Less(p, x)
  }

  lemma LeastIsThere(s: set<string>)
    requires s != {}
    ensures exists p :: IsLeast(s, p)
  {
    var least := LeastExists(s);
    assert IsLeast(s, least);
  }

  lemma LeastIsUnique(s: set<string>, p: string)
    requires IsLeast(s, p)
    ensures forall q | IsLeast(s, q) :: q == p
  {
    forall q | IsLeast(s, q) ensures q == p {
      if q != p {
        LessAsymmetric(p, q);
      }
    }
  }

  /* ----- sorted lists of strings ----- */

  ghost function Ascending(s: set<string>): (list: seq<string>)
    decreases |s|
  {
    if s == {} then []
    else
      LeastIsThere(s);
      var p :| IsLeast(s, p);
      [p] + Ascending(s - {p})
  }

  ghost function Descending(s: set<string>): (list: seq<string>)
    decreases |s|
  {
    if s == {} then []
    else
      LeastIsThere(s);
      var p :| IsLeast(s, p);
      Descending(s - {p}) + [p]
  }

  lemma {:induction false} AscendingIsSorted(s: set<string>)
    ensures var list := Ascending(s);
            && (forall p :: p in list <==> p in s)
            && forall i, j | 0 <= i < j < |list| :: Less(list[i], list[j])
    decreases |s|
  {
    if s != {} {
      var list := Ascending(s);
      var p := list[0];
      assert IsLeast(s, p) && list == [p] + Ascending(s - {p});
      AscendingIsSorted(s - {p});
      forall i, j | 0 <= i < j < |list| ensures Less(list[i], list[j]) {
        if i == 0 {
          assert list[j] in Ascending(s - {p});
        }
      }
    }
  }

  /** Descending order puts every string after all the greater ones. */
  lemma {:induction false} DescendingIsSorted(s: set<string>)
    ensures var list := Descending(s);
            && (forall p :: p in list <==> p in s)
            && forall i, j | 0 <= i < j < |list| :: Less(list[j], list[i])
    decreases |s|
  {
    if s != {} {
      var list := Descending(s);
      var p := list[|list| - 1];
      assert IsLeast(s, p) && list == Descending(s - {p}) + [p];
      DescendingIsSorted(s - {p});
      forall i, j | 0 <= i < j < |list| ensures Less(list[j], list[i]) {
        if j == |list| - 1 {
          assert list[i] in Descending(s - {p});
        }
      }
    }
  }

  method SortAscending(s: set<string>) returns (list: seq<string>)
    ensures list == Ascending(s)
  {
    var left := s;
    list := [];
    while left != {}
      invariant list + Ascending(left) == Ascending(s)
      decreases |left|
    {
      LeastIsThere(left);
      var p :| p in left && IsLeast(left, p);
      LeastIsUnique(left, p);
      assert list + ([p] + Ascending(left - {p})) == list + [p] + Ascending(left - {p});
      list := list + [p];
      left := left - {p};
    }
  }

  method SortDescending(s: set<string>) returns (list: seq<string>)
    ensures list == Descending(s)
  {
    var left := s;
    list := [];
    while left != {}
      invariant Descending(left) + list == Descending(s)
      decreases |left|
    {
      LeastIsThere(left);
      var p :| p in left && IsLeast(left, p);
      LeastIsUnique(left, p);
      assert Descending(left - {p}) + [p] + list == Descending(left - {p}) + ([p] + list);
      list := [p] + list;
      left := left - {p};
    }
  }
}
