/** Cluster-relative paths, permission bits, and the names of conflict copies. */
module Path {
  import opened Wrappers

  const MAX_PATH_LEN := 4096
  const MAX_NAME_LEN := 255
  const NUL := '\0'

  /* ----- splitting at slashes ----- */

  predicate Has(s: string, c: char)
  {
    c in s
  }

  function Split(p: string): (parts: seq<string>)
    ensures parts != []
    decreases |p|
  {
    if p == "" then [""]
    else if p[0] == '/' then [""] + Split(p[1..])
    else
      var rest := Split(p[1..]);
      [[p[0]] + rest[0]] + rest[1..]
  }

  function Join(parts: seq<string>): string
    requires parts != []
    decreases |parts|
  {
    if |parts| == 1 then parts[0] else parts[0] + "/" + Join(parts[1..])
  }

  /** A letter put before the first element is put before the whole. */
  lemma JoinLetter(c: char, parts: seq<string>)
    requires parts != []
    ensures Join([[c] + parts[0]] + parts[1..]) == [c] + Join(parts)
  {
    var parts' := [[c] + parts[0]] + parts[1..];
    assert parts'[0] == [c] + parts[0] && parts'[1..] == parts[1..];
    if |parts| > 1 {
      var rest := Join(parts[1..]);
      assert Join(parts) == parts[0] + "/" + rest && Join(parts') == [c] + parts[0] + "/" + rest;
      hide Join;
      Reassociate([c], parts[0], "/");
      Reassociate([c], parts[0] + "/", rest);
    }
  }

  lemma Reassociate(a: string, b: string, c: string)
    ensures a + b + c == a + (b + c)
  {
  }

  lemma JoinSlash(parts: seq<string>)
    requires parts != []
    ensures Join([""] + parts) == "/" + Join(parts)
  {
    assert ([""] + parts)[1..] == parts && ([""] + parts)[0] == "";
    assert "" + "/" == "/";
  }

  /** The elements of a path are what stands between its slashes. */
  lemma {:induction false} JoinSplit(p: string)
    ensures Join(Split(p)) == p && forall el | el in Split(p) :: !Has(el, '/')
    decreases |p|
  {
    hide Join;
    if p == "" {
      JoinOne("");
    } else {
      JoinSplit(p[1..]);
      assert p == [p[0]] + p[1..];
      if p[0] == '/' {
        JoinSlash(Split(p[1..]));
      } else {
        var rest := Split(p[1..]);
        JoinLetter(p[0], rest);
        assert rest[0] in rest && forall el | el in rest[1..] :: el in rest;
      }
    }
  }

  lemma JoinOne(el: string)
    ensures Join([el]) == el
  {
  }

  /* ----- path.Clean on a relative path ----- */

  /** The elements of a relative path after path.Clean: kept holds what was kept so far. */
  function CleanElements(kept: seq<string>, parts: seq<string>): seq<string>
    decreases |parts|
  {
    if parts == [] then kept
    else
      var el := parts[0];
      var kept' :=
        if el == "" || el == "." then kept
        else if el == ".." && kept != [] && kept[|kept| - 1] != ".." then kept[..|kept| - 1]
        else kept + [el];
      CleanElements(kept', parts[1..])
  }

  function Clean(p: string): string
  {
    var elements := CleanElements([], Split(p));
    if elements == [] then "." else Join(elements)
  }

  predicate PlainElement(el: string)
  {
    el != "" && el != "." && el != ".." && |el| <= MAX_NAME_LEN
  }

  datatype PathError = Empty | TooLong | ContainsNul | Absolute | NotCanonical | BadElement

  function SanitizePath(p: string): Result<string, PathError>
  {
    if p == "" then Err(Empty)
    else if |p| > MAX_PATH_LEN then Err(TooLong)
    else if Has(p, NUL) then Err(ContainsNul)
    else if p[0] == '/' then Err(Absolute)
    else if Clean(p) != p then Err(NotCanonical)
    else if exists el | el in Split(p) :: !PlainElement(el) then Err(BadElement)
    else Ok(p)
  }

  lemma {:induction false} CleanKeepsPlain(kept: seq<string>, parts: seq<string>)
    requires forall el | el in parts :: PlainElement(el)
    ensures CleanElements(kept, parts) == kept + parts
    decreases |parts|
  {
    if parts == [] {
      assert kept + parts == kept;
    } else {
      assert parts[0] in parts;
      CleanKeepsPlain(kept + [parts[0]], parts[1..]);
      assert kept + [parts[0]] + parts[1..] == kept + parts;
    }
  }

  /**
   What SanitizePath accepts: exactly the NUL-free paths of at most 4096 bytes
   all of whose elements are non-empty, at most 255 bytes, and neither "." nor
   "..". The canonical-form test adds nothing beyond that and costs no such path.
   */
  lemma SanitizeExact(p: string)
    ensures SanitizePath(p).Ok? <==>
            |p| <= MAX_PATH_LEN && !Has(p, NUL) && forall el | el in Split(p) :: PlainElement(el)
    ensures SanitizePath(p).Ok? ==> SanitizePath(p).value == p
  {
    if forall el | el in Split(p) :: PlainElement(el) {
      CleanKeepsPlain([], Split(p));
      JoinSplit(p);
      assert [] + Split(p) == Split(p);
      assert Split(p)[0] in Split(p);
    }
  }

  lemma PlainLetter(c: char)
    requires c != '/' && c != '.' && c != NUL
    ensures SanitizePath([c]) == Ok([c])
  {
    assert [c][1..] == "" && Split("") == [""];
    assert [c] + "" == [c] && [[c]] + [] == [[c]];
    assert CleanElements([], [[c]]) == CleanElements([] + [[c]], []);
  }

  /* ----- permission bits ----- */

  /** fs.ModePerm | fs.ModeSetuid | fs.ModeSetgid | fs.ModeSticky */
  const REPLICATED_MODE_BITS: bv32 := 0x00D0_01FF
  const PERM_BITS: bv32 := 0x0000_01FF

  function SanitizeMode(mode: bv32): bv32
  {
    mode & REPLICATED_MODE_BITS
  }

  /** What is replicated of a mode: permissions, and setuid, setgid and sticky where io/fs keeps them. */
  lemma SanitizeModeExact(mode: bv32)
    ensures var kept := SanitizeMode(mode);
            && kept & 0x1FF == mode & 0x1FF && kept & 0x80_0000 == mode & 0x80_0000
            && kept & 0x40_0000 == mode & 0x40_0000 && kept & 0x10_0000 == mode & 0x10_0000
            && (mode & 0x1FF == mode ==> kept == mode) && SanitizeMode(kept) == kept
            && kept & 0xFF2F_FE00 == 0
  {
  }

  /* ----- decimal numbers ----- */

  predicate AllDigits(s: string)
  {
    forall c | c in s :: '0' <= c <= '9'
  }

  function Digit(d: nat): char
    requires d < 10
  {
    "0123456789"[d]
  }

  function Decimal(n: nat): (s: string)
    ensures s != "" && AllDigits(s)
  {
    if n < 10 then [Digit(n)] else Decimal(n / 10) + [Digit(n % 10)]
  }

  /** fmt's %d. */
  function DecimalInt(n: int): (s: string)
    ensures s != "" && forall c | c in s :: c == '-' || '0' <= c <= '9'
  {
    if n < 0 then "-" + Decimal(-n) else Decimal(n)
  }

  lemma {:induction false} DecimalInjective(m: nat, n: nat)
    requires Decimal(m) == Decimal(n)
    ensures m == n
    decreases m
  {
    var a, b := Decimal(m), Decimal(n);
    assert a[|a| - 1] == Digit(m % 10) && b[|b| - 1] == Digit(n % 10);
    assert m >= 10 ==> |a| == |Decimal(m / 10)| + 1;
    assert n >= 10 ==> |b| == |Decimal(n / 10)| + 1;
    if m >= 10 {
      assert Decimal(m / 10) == a[..|a| - 1] == b[..|b| - 1] == Decimal(n / 10);
      DecimalInjective(m / 10, n / 10);
    }
  }

  lemma DecimalIntInjective(m: int, n: int)
    requires DecimalInt(m) == DecimalInt(n)
    ensures m == n
  {
    DecimalIntSign(m);
    DecimalIntSign(n);
    if m >= 0 {
      DecimalInjective(m, n);
    } else {
      assert Decimal(-m) == DecimalInt(m)[1..] == DecimalInt(n)[1..] == Decimal(-n);
      DecimalInjective(-m, -n);
    }
  }

  lemma DecimalIntSign(n: int)
    ensures DecimalInt(n)[0] == '-' <==> n < 0
  {
    if n >= 0 {
      assert Decimal(n)[0] in Decimal(n);
    }
  }

  /* ----- conflict names ----- */

  const CONFLICT_MARK := ".conflict."

  function ConflictName(p: string, node: string, unixNano: int): string
  {
    p + CONFLICT_MARK + node + "." + DecimalInt(unixNano)
  }

  /** path.Base of a non-empty canonical path: what follows the last slash. */
  function Base(p: string): string
  {
    var parts := Split(p);
    parts[|parts| - 1]
  }

  predicate OccursAt(s: string, t: string, i: int)
  {
    0 <= i <= |s| - |t| && s[i..i + |t|] == t
  }

  predicate Contains(s: string, t: string)
  {
    exists i | 0 <= i <= |s| :: OccursAt(s, t, i)
  }

  predicate IsConflictName(p: string)
  {
    Contains(Base(p), CONFLICT_MARK)
  }

  /** A text without the separator is determined by what follows the last separator. */
  lemma SplitAtLast(x: string, d: string, y: string, e: string, c: char)
    requires x + [c] + d == y + [c] + e
    requires c !in d && c !in e
    ensures x == y && d == e
  {
    var s, t := x + [c] + d, y + [c] + e;
    assert s[|x|] == c && t[|y|] == c;
    assert forall i | |x| < i < |s| :: s[i] == d[i - |x| - 1];
    assert forall i | |y| < i < |t| :: t[i] == e[i - |y| - 1];
    assert |x| == |y|;
    assert x == s[..|x|] && y == t[..|y|];
    assert d == s[|x| + 1..] && e == t[|y| + 1..];
  }

  /** Conflict names tell path, origin and wall time apart, when origins hold no dot. */
  lemma ConflictNameInjective(p: string, o: string, w: int, p': string, o': string, w': int)
    requires !Has(o, '.') && !Has(o', '.')
    requires ConflictName(p, o, w) == ConflictName(p', o', w')
    ensures p == p' && o == o' && w == w'
  {
    var d, d' := DecimalInt(w), DecimalInt(w');
    assert '.' !in d && '.' !in d';
    var head, head' := p + ".conflict" + ['.'] + o, p' + ".conflict" + ['.'] + o';
    assert CONFLICT_MARK == ".conflict" + ['.'];
    assert ConflictName(p, o, w) == head + ['.'] + d;
    assert ConflictName(p', o', w') == head' + ['.'] + d';
    SplitAtLast(head, d, head', d', '.');
    DecimalIntInjective(w, w');
    SplitAtLast(p + ".conflict", o, p' + ".conflict", o', '.');
    assert p == (p + ".conflict")[..|p|] && p' == (p' + ".conflict")[..|p'|];
  }

  lemma {:induction false} SplitAppend(p: string, t: string)
    requires !Has(t, '/')
    ensures |Split(p + t)| == |Split(p)|
    ensures Base(p + t) == Base(p) + t
    decreases |p|
  {
    if p == "" {
      SplitPlain(t);
      assert p + t == t;
    } else {
      SplitAppend(p[1..], t);
      assert (p + t)[1..] == p[1..] + t && (p + t)[0] == p[0];
      var rest, rest' := Split(p[1..]), Split(p[1..] + t);
      if p[0] == '/' {
        assert Split(p + t) == [""] + rest' && Split(p) == [""] + rest;
      } else {
        assert Split(p + t) == [[p[0]] + rest'[0]] + rest'[1..] && Split(p) == [[p[0]] + rest[0]] + rest[1..];
        if |rest| == 1 {
          assert [p[0]] + (rest[0] + t) == [p[0]] + rest[0] + t;
        }
      }
    }
  }

  /** What is put after a path leaves all elements but the last as they are. */
  lemma {:induction false} SplitKeepsFirst(p: string, t: string, i: nat)
    requires !Has(t, '/') && i < |Split(p)| - 1
    ensures |Split(p + t)| == |Split(p)| && Split(p + t)[i] == Split(p)[i]
    decreases |p|
  {
    SplitAppend(p, t);
    assert (p + t)[1..] == p[1..] + t && (p + t)[0] == p[0];
    if i > 0 || p[0] != '/' {
      SplitAppend(p[1..], t);
      var j := if p[0] == '/' then i - 1 else i;
      SplitKeepsFirst(p[1..], t, j);
    }
  }

  lemma {:induction false} SplitPlain(t: string)
    requires !Has(t, '/')
    ensures Split(t) == [t]
    decreases |t|
  {
    if t != "" {
      assert t[0] in t;
      forall c | c in t[1..] ensures c in t {
      }
      SplitPlain(t[1..]);
      assert t == [t[0]] + t[1..];
    }
  }

  /** Every conflict copy this program names is recognised as one, when origins hold no slash. */
  lemma ConflictNameIsRecognised(p: string, o: string, w: int)
    requires !Has(o, '/')
    ensures IsConflictName(ConflictName(p, o, w))
  {
    var number := DecimalInt(w);
    var rest := o + "." + number;
    var t := CONFLICT_MARK + rest;
    assert !Has(t, '/');
    hide DecimalInt, Has;
    assert ConflictName(p, o, w) == p + t by {
      Reassociate(o, ".", number);
      Reassociate(p, CONFLICT_MARK, o);
      Reassociate(p, CONFLICT_MARK + o, ".");
      Reassociate(p, CONFLICT_MARK + o + ".", number);
      Reassociate(CONFLICT_MARK, o, ".");
      Reassociate(CONFLICT_MARK, o + ".", number);
    }
    SplitAppend(p, t);
    MarkOccurs(Base(p), CONFLICT_MARK, rest);
    hide Base, ConflictName;
    assert OccursAt(Base(p) + t, CONFLICT_MARK, |Base(p)|);
  }

  lemma MarkOccurs(head: string, mark: string, rest: string)
    ensures OccursAt(head + (mark + rest), mark, |head|)
  {
    var s := head + (mark + rest);
    assert s[|head|..|head| + |mark|] == mark;
  }

  /** A conflict name holds no NUL when its parts hold none. */
  lemma ConflictNameIsNulFree(p: string, o: string, w: int)
    requires !Has(p, NUL) && !Has(o, NUL)
    ensures !Has(ConflictName(p, o, w), NUL)
  {
    assert NUL !in DecimalInt(w);
  }

  /* ----- ancestors ----- */

  /** a is a proper ancestor directory of p. */
  predicate IsBelow(p: string, a: string)
  {
    |a| + 1 < |p| && p[..|a|] == a && p[|a|] == '/'
  }
}
