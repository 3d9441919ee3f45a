/** SQLite values as the program's tables hold them: storage classes,
    the ORDER BY comparison, column affinity, parameter binding from
    Python values, and the LIKE operator. */
module SqlValues {
  import opened Options
  import opened Strings
  import opened JsonValues

  /** A stored value: NULL, INTEGER or TEXT. */
  datatype Cell = Null | Int(i: int) | Text(s: string)

  /** SQLite's sort order of storage classes: NULL, then numbers, then text. */
  function Rank(c: Cell): nat {
    match c
    case Null => 0
    case Int(_) => 1
    case Text(_) => 2
  }

  /** BINARY collation: code-point lexicographic order (the order of the
      UTF-8 bytes). */
  predicate StrLe(a: string, b: string) {
    |a| == 0 || (|b| > 0 && (a[0] < b[0] || (a[0] == b[0] && StrLe(a[1..], b[1..]))))
  }

  /** `a` sorts no later than `b` in an ascending ORDER BY. */
  predicate CellLe(a: Cell, b: Cell) {
    if Rank(a) != Rank(b) then Rank(a) < Rank(b)
    else match a
      case Null => true
      case Int(x) => x <= b.i
      case Text(s) => StrLe(s, b.s)
  }

  lemma {:induction false} StrLeTotal(a: string, b: string)
    ensures StrLe(a, b) || StrLe(b, a)
  {
    if |a| > 0 && |b| > 0 && a[0] == b[0] {
      StrLeTotal(a[1..], b[1..]);
    }
  }

  lemma {:induction false} StrLeTrans(a: string, b: string, c: string)
    requires StrLe(a, b) && StrLe(b, c)
    ensures StrLe(a, c)
  {
    if |a| > 0 && a[0] == b[0] && b[0] == c[0] {
      StrLeTrans(a[1..], b[1..], c[1..]);
    }
  }

  /** CellLe is a total preorder, so ORDER BY is well defined up to ties. */
  lemma CellLeTotal(a: Cell, b: Cell)
    ensures CellLe(a, b) || CellLe(b, a)
  {
    if a.Text? && b.Text? {
      StrLeTotal(a.s, b.s);
    }
  }

  lemma CellLeTrans(a: Cell, b: Cell, c: Cell)
    requires CellLe(a, b) && CellLe(b, c)
    ensures CellLe(a, c)
  {
    if a.Text? && b.Text? && c.Text? {
      StrLeTrans(a.s, b.s, c.s);
    }
  }

  // ---------------------------------------------------------------------
  // Binding Python values and column affinity
  // ---------------------------------------------------------------------

  const MinInt64: int := -0x8000_0000_0000_0000
  const MaxInt64: int := 0x7FFF_FFFF_FFFF_FFFF

  predicate InInt64(n: int) {
    MinInt64 <= n <= MaxInt64
  }

  /** How `sqlite3` binds a Python value; `None` is the error raised for a
      list, a dict, or an integer outside 64 bits. `bool` binds as 0/1. */
  function Bind(j: Json): (r: Option<Cell>)
    ensures r.None? <==> j.JArr? || j.JObj? || (j.JNum? && !InInt64(j.n))
    ensures j.JStr? ==> r == Some(Text(j.s))
    ensures j.JNull? ==> r == Some(Null)
    ensures j.JNum? && InInt64(j.n) ==> r == Some(Int(j.n))
    ensures j.JBool? ==> r == Some(Int(if j.b then 1 else 0))
  {
    match j
    case JNull => Some(Null)
    case JBool(b) => Some(Int(if b then 1 else 0))
    case JNum(n) => if InInt64(n) then Some(Int(n)) else None
    case JStr(s) => Some(Text(s))
    case JArr(_) => None
    case JObj(_) => None
  }

  /** TEXT affinity: an integer is stored as its decimal text. */
  function TextAffinity(c: Cell): (r: Cell)
    ensures !r.Int?
    ensures r.Null? <==> c.Null?
    ensures c.Int? ==> r.Text? && ParseInteger(r.s) == Some(c.i)
    ensures !c.Int? ==> r == c
  {
    match c
    case Int(i) => IntToDecimalRoundTrip(i); Text(IntToDecimal(i))
    case _ => c
  }

  /** The characters SQLite skips around a numeric literal: space, tab,
      newline, vertical tab, form feed and carriage return. */
  predicate SqlSpace(c: char) {
    c == ' ' || '\t' <= c <= '\r'
  }

  /** The text with SQLite's whitespace removed at both ends. */
  function SqlTrim(s: string): (r: string)
    ensures |r| <= |s|
    ensures |r| == 0 || (!SqlSpace(r[0]) && !SqlSpace(r[|r| - 1]))
    decreases |s|
  {
    if |s| > 0 && SqlSpace(s[0]) then SqlTrim(s[1..])
    else if |s| > 0 && SqlSpace(s[|s| - 1]) then SqlTrim(s[..|s| - 1])
    else s
  }

  /** Trimming removes exactly the whitespace padding around a literal
      that neither starts nor ends with whitespace. */
  lemma {:induction false} SqlTrimPadded(pre: string, t: string, post: string)
    requires |t| > 0 && !SqlSpace(t[0]) && !SqlSpace(t[|t| - 1])
    requires forall i :: 0 <= i < |pre| ==> SqlSpace(pre[i])
    requires forall i :: 0 <= i < |post| ==> SqlSpace(post[i])
    ensures SqlTrim(pre + t + post) == t
    decreases |pre| + |post|
  {
    var s := pre + t + post;
    if |pre| > 0 {
      assert s[0] == pre[0];
      assert s[1..] == pre[1..] + t + post;
      SqlTrimPadded(pre[1..], t, post);
    } else if |post| > 0 {
      assert s[0] == t[0] && s[|s| - 1] == post[|post| - 1];
      assert s[..|s| - 1] == pre + t + post[..|post| - 1];
      SqlTrimPadded(pre, t, post[..|post| - 1]);
    } else {
      assert s == t;
    }
  }

  /** INTEGER affinity: text that is an integer literal within 64 bits,
      once surrounding whitespace is skipped, is stored as that integer;
      any other value is stored as given. */
  function IntegerAffinity(c: Cell): (r: Cell)
    ensures r.Null? <==> c.Null?
    ensures c.Int? ==> r == c
    ensures c.Text? && r.Int? ==> ParseInteger(SqlTrim(c.s)) == Some(r.i) && InInt64(r.i)
    ensures c.Text? && !r.Int? ==> r == c
    ensures c.Text? ==> (r.Int? <==> ParseInteger(SqlTrim(c.s)).Some? && InInt64(ParseInteger(SqlTrim(c.s)).value))
  {
    match c
    case Text(s) =>
      (match ParseInteger(SqlTrim(s))
       case Some(v) => if InInt64(v) then Int(v) else c
       case None => c)
    case _ => c
  }

  lemma DecimalHasNoPadding(i: int)
    ensures var t := IntToDecimal(i); |t| > 0 && !SqlSpace(t[0]) && !SqlSpace(t[|t| - 1])
  {
    var d := if i < 0 then Digits(-i) else Digits(i);
    assert IsDigit(d[|d| - 1]) && IsDigit(d[0]);
    if i < 0 {
      assert IntToDecimal(i) == "-" + d;
    }
  }

  /** A number written as text into an INTEGER column reads back as that
      number, with or without whitespace around it. */
  lemma IntegerAffinityReadsDecimal(i: int, pre: string, post: string)
    requires InInt64(i)
    requires forall k :: 0 <= k < |pre| ==> SqlSpace(pre[k])
    requires forall k :: 0 <= k < |post| ==> SqlSpace(post[k])
    ensures IntegerAffinity(Text(pre + IntToDecimal(i) + post)) == Int(i)
  {
    DecimalHasNoPadding(i);
    SqlTrimPadded(pre, IntToDecimal(i), post);
    IntToDecimalRoundTrip(i);
  }

  // ---------------------------------------------------------------------
  // LIKE
  // ---------------------------------------------------------------------

  /** SQLite's default LIKE: `%` matches any run of characters, `_` any one
      character, and other characters match ignoring ASCII case. */
  predicate Like(p: string, s: string)
    decreases |p| + |s|
  {
    if |p| == 0 then |s| == 0
    else if p[0] == '%' then Like(p[1..], s) || (|s| > 0 && Like(p, s[1..]))
    else if p[0] == '_' then |s| > 0 && Like(p[1..], s[1..])
    else |s| > 0 && LowerChar(p[0]) == LowerChar(s[0]) && Like(p[1..], s[1..])
  }

  predicate NoWildcards(c: string) {
    forall i :: 0 <= i < |c| ==> c[i] != '%' && c[i] != '_'
  }

  lemma {:induction false} LikePercentAll(t: string)
    ensures Like("%", t)
    decreases |t|
  {
    assert "%"[1..] == "";
    if |t| > 0 {
      LikePercentAll(t[1..]);
    }
  }

  /** `c%` matches exactly the strings that start with `c`, ignoring case. */
  lemma {:induction false} LikePrefix(c: string, t: string)
    requires NoWildcards(c)
    ensures Like(c + "%", t) <==> |t| >= |c| && Lower(t[..|c|]) == Lower(c)
    decreases |c|
  {
    if |c| == 0 {
      assert c + "%" == "%";
      LikePercentAll(t);
    } else {
      var p := c + "%";
      assert p[0] == c[0] && p[1..] == c[1..] + "%";
      if |t| > 0 {
        LikePrefix(c[1..], t[1..]);
        if |t| >= |c| {
          assert Lower(t[..|c|]) == [LowerChar(t[0])] + Lower(t[1..][..|c| - 1]) by {
            assert t[..|c|] == [t[0]] + t[1..][..|c| - 1];
          }
          assert Lower(c) == [LowerChar(c[0])] + Lower(c[1..]);
        }
      }
    }
  }

  /** A leading `%` matches when the rest matches some suffix. */
  lemma {:induction false} LikeLeadingPercent(q: string, s: string)
    ensures Like("%" + q, s) <==> exists i :: 0 <= i <= |s| && Like(q, s[i..])
    decreases |s|
  {
    var p := "%" + q;
    assert p[0] == '%' && p[1..] == q;
    assert s[0..] == s;
    if |s| > 0 {
      LikeLeadingPercent(q, s[1..]);
      if exists i :: 0 <= i <= |s| && Like(q, s[i..]) {
        var i :| 0 <= i <= |s| && Like(q, s[i..]);
        if i > 0 {
          assert s[1..][i - 1..] == s[i..];
        }
      }
      if exists i :: 0 <= i <= |s[1..]| && Like(q, s[1..][i..]) {
        var i :| 0 <= i <= |s[1..]| && Like(q, s[1..][i..]);
        assert s[1..][i..] == s[i + 1..];
      }
    }
  }

  /** Case-insensitive substring test on ASCII letters. */
  predicate ContainsIgnoringCase(s: string, c: string) {
    Contains(Lower(s), Lower(c))
  }

  /** A match position of `c` in `s`, ignoring case. */
  lemma LikeAtPosition(c: string, s: string, i: int)
    requires NoWildcards(c) && 0 <= i <= |s|
    ensures Like(c + "%", s[i..]) <==> OccursAt(Lower(s), Lower(c), i)
  {
    LikePrefix(c, s[i..]);
    if i + |c| <= |s| {
      assert s[i..][..|c|] == s[i..i + |c|];
      LowerSlice(s, i, i + |c|);
    }
  }

  /** Lower-casing commutes with slicing. */
  lemma LowerSlice(s: string, i: int, j: int)
    requires 0 <= i <= j <= |s|
    ensures Lower(s[i..j]) == Lower(s)[i..j]
  {
  }

  /** `LIKE '%c%'` for a wildcard-free `c` is a case-insensitive substring
      test. */
  lemma LikeIsSubstring(c: string, s: string)
    requires NoWildcards(c)
    ensures Like("%" + c + "%", s) <==> ContainsIgnoringCase(s, c)
  {
    assert "%" + c + "%" == "%" + (c + "%");
    LikeLeadingPercent(c + "%", s);
    if Like("%" + c + "%", s) {
      var i :| 0 <= i <= |s| && Like(c + "%", s[i..]);
      LikeAtPosition(c, s, i);
    }
    if ContainsIgnoringCase(s, c) {
      var i :| 0 <= i <= |Lower(s)| - |Lower(c)| && OccursAt(Lower(s), Lower(c), i);
      LikeAtPosition(c, s, i);
    }
  }
}
