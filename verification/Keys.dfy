/** Redis key strings: JavaScript's `split(':')`, Redis glob matching restricted to
    literals and `*`, and decimal numerals. */
module Keys {
  predicate ColonFree(s: string) {
    ':' !in s
  }

  function Split(s: string): (parts: seq<string>)
    ensures |parts| >= 1
  {
    if s == "" then [""]
    else if s[0] == ':' then [""] + Split(s[1..])
    else
      var rest := Split(s[1..]);
      [[s[0]] + rest[0]] + rest[1..]
  }

  lemma {:induction false} SplitColonFree(s: string)
    requires ColonFree(s)
    ensures Split(s) == [s]
  {
    if s != "" {
      SplitColonFree(s[1..]);
      assert [s[0]] + s[1..] == s;
    }
  }

  /** A colon cuts a key exactly in two, whatever stands on either side. */
  lemma {:induction false} SplitConcat(a: string, b: string)
    ensures Split(a + ":" + b) == Split(a) + Split(b)
  {
    if a == "" {
      assert (a + ":" + b)[1..] == b;
    } else {
      SplitConcat(a[1..], b);
      assert a + ":" + b == [a[0]] + (a[1..] + ":" + b);
      SplitCons(a[0], a[1..] + ":" + b);
      assert a == [a[0]] + a[1..];
      SplitCons(a[0], a[1..]);
      PushCharConcat(a[0], Split(a[1..]), Split(b));
    }
  }

  function PushChar(c: char, parts: seq<string>): seq<string>
    requires |parts| >= 1
  {
    if c == ':' then [""] + parts else [[c] + parts[0]] + parts[1..]
  }

  lemma SplitCons(c: char, s: string)
    ensures Split([c] + s) == PushChar(c, Split(s))
  {
    assert ([c] + s)[1..] == s;
  }

  lemma PushCharConcat(c: char, x: seq<string>, y: seq<string>)
    requires |x| >= 1
    ensures PushChar(c, x + y) == PushChar(c, x) + y
  {
    if c == ':' {
      assert [""] + (x + y) == ([""] + x) + y;
    } else {
      assert (x + y)[1..] == x[1..] + y;
    }
  }

  /** A key is determined by its segments. */
  lemma {:induction false} SplitInjective(a: string, b: string)
    requires Split(a) == Split(b)
    ensures a == b
    decreases |a| + |b|
  {
    if a == "" && b != "" {
      SplitNonEmpty(b);
    } else if b == "" && a != "" {
      SplitNonEmpty(a);
    } else if a != "" && b != "" {
      var x, y := Split(a[1..]), Split(b[1..]);
      assert Split(a)[0] == "" <==> a[0] == ':';
      assert Split(b)[0] == "" <==> b[0] == ':';
      if a[0] == ':' {
        assert x == Split(a)[1..] == y;
      } else {
        assert [x[0]] + x[1..] == x && [y[0]] + y[1..] == y;
        assert Split(a)[0][1..] == x[0] && Split(b)[0][1..] == y[0];
        assert Split(a)[1..] == x[1..] && Split(b)[1..] == y[1..];
        assert Split(a)[0][0] == a[0] && Split(b)[0][0] == b[0];
      }
      SplitInjective(a[1..], b[1..]);
      assert a == [a[0]] + a[1..] && b == [b[0]] + b[1..];
    }
  }

  lemma SplitNonEmpty(s: string)
    requires s != ""
    ensures Split(s) != [""]
  {}

  predicate Glob(p: string, s: string)
    decreases |p| + |s|
  {
    if p == "" then s == ""
    else if p[0] == '*' then Glob(p[1..], s) || (s != "" && Glob(p, s[1..]))
    else s != "" && s[0] == p[0] && Glob(p[1..], s[1..])
  }

  lemma {:induction false} GlobLiteral(w: string, p: string, s: string)
    requires '*' !in w
    ensures Glob(w + p, s) <==> w <= s && Glob(p, s[|w|..])
  {
    if w == "" {
      assert w + p == p && s[0..] == s;
    } else {
      assert (w + p)[0] == w[0] && (w + p)[1..] == w[1..] + p;
      if s != "" && s[0] == w[0] {
        GlobLiteral(w[1..], p, s[1..]);
        if w[1..] <= s[1..] {
          assert w == [w[0]] + w[1..] && s == [s[0]] + s[1..];
          assert s[1..][|w[1..]|..] == s[|w|..];
        }
      }
    }
  }

  lemma {:induction false} GlobStar(p: string, s: string)
    ensures Glob("*" + p, s) <==> exists i: nat :: i <= |s| && Glob(p, s[i..])
  {
    assert ("*" + p)[1..] == p;
    assert s[0..] == s;
    if s != "" {
      GlobStar(p, s[1..]);
      if i: nat :| i <= |s| && Glob(p, s[i..]) {
        if i > 0 { assert s[1..][i - 1..] == s[i..]; }
      }
      if i: nat :| i <= |s[1..]| && Glob(p, s[1..][i..]) {
        assert s[1..][i..] == s[i + 1..];
      }
    } else if i: nat :| i <= |s| && Glob(p, s[i..]) {
      assert i == 0;
    }
  }

  /** `pre*suf` */
  lemma GlobOneStar(pre: string, suf: string, s: string)
    requires '*' !in pre && '*' !in suf
    ensures Glob(pre + "*" + suf, s) <==> exists x: string :: s == pre + x + suf
  {
    if Glob(pre + "*" + suf, s) {
      var x := StarSplits(pre, suf, s);
    } else if x: string :| s == pre + x + suf {
      StarMatches(pre, x, suf);
    }
  }

  lemma StarSplits(pre: string, suf: string, s: string) returns (x: string)
    requires '*' !in pre && '*' !in suf && Glob(pre + "*" + suf, s)
    ensures s == pre + x + suf
  {
    assert pre + "*" + suf == pre + ("*" + suf);
    GlobLiteral(pre, "*" + suf, s);
    var t := s[|pre|..];
    GlobStar(suf, t);
    var i: nat :| i <= |t| && Glob(suf, t[i..]);
    ExactGlob(suf, t[i..]);
    x := t[..i];
  }

  lemma StarMatches(pre: string, x: string, suf: string)
    requires '*' !in pre && '*' !in suf
    ensures Glob(pre + "*" + suf, pre + x + suf)
  {
    var s := pre + x + suf;
    assert s[|pre|..] == x + suf && s[|pre|..][|x|..] == suf;
    ExactGlob(suf, suf);
    GlobStar(suf, x + suf);
    GlobLiteral(pre, "*" + suf, s);
    assert pre + "*" + suf == pre + ("*" + suf);
  }

  lemma ExactGlob(w: string, s: string)
    requires '*' !in w
    ensures Glob(w, s) <==> s == w
  {
    assert w + "" == w;
    GlobLiteral(w, "", s);
    if w <= s && s[|w|..] == "" { assert s == w + s[|w|..]; }
  }

  /** `mid*` */
  lemma GlobPrefix(mid: string, s: string)
    requires '*' !in mid
    ensures Glob(mid + "*", s) <==> mid <= s
  {
    GlobLiteral(mid, "*", s);
    if mid <= s { AnyGlob(s[|mid|..]); }
  }

  /** `*mid*` */
  lemma InfixSplits(mid: string, t: string) returns (x: string, y: string)
    requires '*' !in mid && Glob("*" + (mid + "*"), t)
    ensures t == x + mid + y
  {
    GlobStar(mid + "*", t);
    var i: nat :| i <= |t| && Glob(mid + "*", t[i..]);
    GlobPrefix(mid, t[i..]);
    x, y := t[..i], t[i..][|mid|..];
  }

  lemma InfixMatches(x: string, mid: string, y: string)
    requires '*' !in mid
    ensures Glob("*" + (mid + "*"), x + mid + y)
  {
    var t := x + mid + y;
    assert t[|x|..] == mid + y;
    GlobPrefix(mid, t[|x|..]);
    GlobStar(mid + "*", t);
  }

  /** `pre*mid*` */
  lemma GlobTwoStars(pre: string, mid: string, s: string)
    requires '*' !in pre && '*' !in mid
    ensures Glob(pre + "*" + mid + "*", s) <==> exists x: string, y: string :: s == pre + x + mid + y
  {
    if Glob(pre + "*" + mid + "*", s) {
      var x, y := TwoStarsSplit(pre, mid, s);
    } else if x: string, y: string :| s == pre + x + mid + y {
      TwoStarsMatch(pre, x, mid, y);
    }
  }

  lemma TwoStarsSplit(pre: string, mid: string, s: string) returns (x: string, y: string)
    requires '*' !in pre && '*' !in mid && Glob(pre + "*" + mid + "*", s)
    ensures s == pre + x + mid + y
  {
    assert pre + "*" + mid + "*" == pre + ("*" + (mid + "*"));
    GlobLiteral(pre, "*" + (mid + "*"), s);
    x, y := InfixSplits(mid, s[|pre|..]);
  }

  lemma TwoStarsMatch(pre: string, x: string, mid: string, y: string)
    requires '*' !in pre && '*' !in mid
    ensures Glob(pre + "*" + mid + "*", pre + x + mid + y)
  {
    var s := pre + x + mid + y;
    assert s == pre + (x + mid + y);
    assert pre + "*" + mid + "*" == pre + ("*" + (mid + "*"));
    InfixMatches(x, mid, y);
    GlobLiteral(pre, "*" + (mid + "*"), s);
  }

  lemma {:induction false} AnyGlob(s: string)
    ensures Glob("*", s)
  {
    if s != "" { AnyGlob(s[1..]); }
  }

  /** The decimal numeral of n, as `toString()` prints it. */
  function Decimal(n: nat): (s: string)
    ensures |s| >= 1
  {
    if n < 10 then [Digit(n)] else Decimal(n / 10) + [Digit(n % 10)]
  }

  function Digit(d: nat): char
    requires d < 10
  {
    '0' + d as char
  }

  predicate IsDigit(c: char) {
    '0' <= c <= '9'
  }

  predicate LexLess(a: string, b: string) {
    b != "" && (a == "" || a[0] < b[0] || (a[0] == b[0] && LexLess(a[1..], b[1..])))
  }

  lemma {:induction false} LexPrefix(w: string, a: string, b: string)
    requires LexLess(a, b)
    ensures LexLess(w + a, w + b)
  {
    if w == "" {
      assert w + a == a && w + b == b;
    } else {
      LexPrefix(w[1..], a, b);
      assert (w + a)[1..] == w[1..] + a && (w + b)[1..] == w[1..] + b;
    }
  }

  lemma {:induction false} LexExtend(a: string, b: string, c: string, d: string)
    requires |a| == |b| && LexLess(a, b)
    ensures LexLess(a + c, b + d)
  {
    if a != "" && a[0] == b[0] {
      LexExtend(a[1..], b[1..], c, d);
      assert (a + c)[1..] == a[1..] + c && (b + d)[1..] == b[1..] + d;
    }
  }

  lemma {:induction false} DecimalDigits(n: nat)
    ensures forall c :: c in Decimal(n) ==> IsDigit(c)
  {
    if n >= 10 { DecimalDigits(n / 10); }
  }

  /** Numerals are injective, and numerals of one length compare as their numbers do. */
  lemma {:induction false} DecimalOrder(a: nat, b: nat)
    ensures Decimal(a) == Decimal(b) ==> a == b
    ensures a < b && |Decimal(a)| == |Decimal(b)| ==> LexLess(Decimal(a), Decimal(b))
    decreases a
  {
    if a >= 10 && b >= 10 {
      var x, y := Decimal(a / 10), Decimal(b / 10);
      DecimalOrder(a / 10, b / 10);
      assert Decimal(a)[..|x|] == x && Decimal(b)[..|y|] == y;
      if a < b && |x| == |y| {
        if a / 10 < b / 10 {
          LexExtend(x, y, [Digit(a % 10)], [Digit(b % 10)]);
        } else {
          LexPrefix(x, [Digit(a % 10)], [Digit(b % 10)]);
        }
      }
    }
  }
}
