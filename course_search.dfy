/**
 * The pure part of searchCourse: reading `page` and `limit` from the query
 * string, the skip and page-count arithmetic, and the rewrite of the title
 * into a pattern that lets any whitespace in the title match any amount of
 * whitespace in a course name.
 */
module CourseSearch {
  import opened Wrappers
  import Strings

  // ---------------------------------------------------------------------------
  // parseInt(s, 10)

  predicate IsDigit(c: char)
  {
    '0' <= c <= '9'
  }

  predicate AllDigits(s: string)
  {
    forall i :: 0 <= i < |s| ==> IsDigit(s[i])
  }

  /** `s` without its leading whitespace. */
  function TrimStart(s: string): (r: string)
  {
    if |s| > 0 && Strings.IsJsSpace(s[0]) then TrimStart(s[1..]) else s
  }

  /** The longest prefix of `s` made of decimal digits. */
  function LeadingDigits(s: string): (d: string)
    ensures AllDigits(d)
  {
    if |s| > 0 && IsDigit(s[0]) then [s[0]] + LeadingDigits(s[1..]) else ""
  }

  /** The value of a string of decimal digits, most significant first. */
  function DigitsValue(d: string): nat
    requires AllDigits(d)
  {
    if |d| == 0 then 0 else DigitsValue(d[..|d| - 1]) * 10 + (d[|d| - 1] - '0') as nat
  }

  /**
   * `parseInt(s, 10)`: skip leading whitespace, read an optional sign, then
   * as many decimal digits as there are; None is NaN (no digit at all).
   * `parseInt(undefined, 10)` is NaN too, written as a None argument.
   */
  function ParseInt(s: Option<string>): (r: Option<int>)
  {
    if s.None? then None else ParseSigned(TrimStart(s.value))
  }

  /** parseInt after the leading whitespace: an optional sign, then digits. */
  function ParseSigned(t: string): (r: Option<int>)
  {
    if |t| > 0 && t[0] == '-' then
      (match ParseDigits(t[1..]) case None => None case Some(v) => Some(-(v as int)))
    else if |t| > 0 && t[0] == '+' then ParseDigits(t[1..])
    else ParseDigits(t)
  }

  /** The value of the leading digits of `u`, or None when it does not start with a digit. */
  function ParseDigits(u: string): (r: Option<nat>)
    ensures r.None? <==> |u| == 0 || !IsDigit(u[0])
  {
    var d := LeadingDigits(u);
    if |d| == 0 then None else Some(DigitsValue(d))
  }

  /** The digits of `n`, most significant first: what `String(n)` prints for a natural number. */
  function NatToDigits(n: nat): (d: string)
    ensures |d| > 0 && AllDigits(d)
  {
    if n < 10 then [('0' as int + n) as char] else NatToDigits(n / 10) + [('0' as int + n % 10) as char]
  }

  /** `String(n)` for an integer. */
  function Decimal(n: int): string
  {
    if n < 0 then "-" + NatToDigits(-n) else NatToDigits(n)
  }

  lemma {:induction false} DigitsValueOfNatToDigits(n: nat)
    ensures DigitsValue(NatToDigits(n)) == n
  {
    if n >= 10 {
      DigitsValueOfNatToDigits(n / 10);
      var d := NatToDigits(n);
      assert d[..|d| - 1] == NatToDigits(n / 10);
    }
  }

  /** The leading digits of a string of digits followed by a non-digit are those digits. */
  lemma ParseDigitsOfDecimal(n: nat, rest: string)
    requires |rest| == 0 || !IsDigit(rest[0])
    ensures ParseDigits(NatToDigits(n) + rest) == Some(n)
  {
    var d := NatToDigits(n);
    LeadingDigitsPrefix(d, rest);
    DigitsValueOfNatToDigits(n);
  }

  /** A string that starts with a digit has no leading whitespace. */
  lemma TrimStartDigit(s: string)
    requires |s| > 0 && IsDigit(s[0])
    ensures TrimStart(s) == s
  {
  }

  /** parseInt reads back what String prints: the two are inverse on integers. */
  lemma ParseIntDecimal(n: int)
    ensures ParseInt(Some(Decimal(n))) == Some(n)
  {
    var m: nat := if n < 0 then -n else n;
    var d := NatToDigits(m);
    ParseDigitsOfDecimal(m, "");
    assert d + "" == d;
    if n < 0 {
      var s := "-" + d;
      assert s[0] == '-' && s[1..] == d;
      assert ParseSigned(s) == Some(n);
      assert TrimStart(s) == s;
    } else {
      TrimStartDigit(d);
      assert ParseSigned(d) == Some(n);
    }
  }

  /** parseInt skips leading whitespace. */
  lemma ParseIntSkipsLeadingSpace(c: char, s: string)
    requires Strings.IsJsSpace(c)
    ensures ParseInt(Some([c] + s)) == ParseInt(Some(s))
  {
  }

  /** parseInt stops at the first character that is not a digit. */
  lemma ParseIntStopsAtNonDigit(n: nat, rest: string)
    requires |rest| == 0 || !IsDigit(rest[0])
    ensures ParseInt(Some(Decimal(n) + rest)) == Some(n)
  {
    var d := NatToDigits(n);
    var t := d + rest;
    assert Decimal(n) == d;
    ParseDigitsOfDecimal(n, rest);
    assert t[0] == d[0];
    TrimStartDigit(t);
  }

  lemma {:induction false} LeadingDigitsPrefix(d: string, rest: string)
    requires AllDigits(d) && (|rest| == 0 || !IsDigit(rest[0]))
    ensures LeadingDigits(d + rest) == d
  {
    if |d| > 0 {
      assert (d + rest)[1..] == d[1..] + rest;
      LeadingDigitsPrefix(d[1..], rest);
    }
  }

  // ---------------------------------------------------------------------------
  // paging

  /**
   * `Math.ceil(a / b)` on integers: the least integer not below the quotient,
   * stated without division (for a negative divisor the inequalities flip).
   */
  function CeilDiv(a: int, b: int): (q: int)
    requires b != 0
    ensures b > 0 ==> (q - 1) * b < a <= q * b
    ensures b < 0 ==> q * b <= a < (q - 1) * b
  {
    if b > 0 then -((-a) / b) else -(a / (-b))
  }

  /** The pagination a search answers with, and the number of courses it skips. */
  datatype Page = Page(currentPage: int, limit: int, skip: int, totalPages: int, totalCourses: nat)

  /** `parseInt(q, 10) || d`: NaN and 0 give way to the default. */
  function NumberOr(q: Option<string>, d: int): (n: int)
    ensures ParseInt(q).None? || ParseInt(q) == Some(0) ==> n == d
    ensures ParseInt(q).Some? && ParseInt(q) != Some(0) ==> n == ParseInt(q).value
  {
    match ParseInt(q)
    case Some(v) => if v != 0 then v else d
    case None => d
  }

  /**
   * searchCourse's paging: the page defaults to 1 and the limit to 10; the
   * search skips `(page - 1) * limit` courses and there are
   * `Math.ceil(totalCourses / limit)` pages.
   */
  function Paginate(pageQuery: Option<string>, limitQuery: Option<string>, totalCourses: nat): (p: Page)
    ensures p.currentPage != 0 && p.limit != 0 && p.totalCourses == totalCourses
    ensures p.currentPage == NumberOr(pageQuery, 1) && p.limit == NumberOr(limitQuery, 10)
    ensures pageQuery.None? ==> p.currentPage == 1
    ensures limitQuery.None? ==> p.limit == 10
    ensures p.skip == (p.currentPage - 1) * p.limit
    ensures p.limit > 0 ==> (p.totalPages - 1) * p.limit < totalCourses <= p.totalPages * p.limit
  {
    var page := NumberOr(pageQuery, 1);
    var limit := NumberOr(limitQuery, 10);
    var totalPages := CeilDiv(totalCourses, limit);
    Page(page, limit, (page - 1) * limit, totalPages, totalCourses)
  }

  /** Which page, of size `limit`, holds the course at position `i` of the result. */
  lemma PageOfCourse(pageQuery: Option<string>, limitQuery: Option<string>, total: nat, i: nat)
    requires Paginate(pageQuery, limitQuery, total).limit > 0 && i < total
    ensures var p := Paginate(pageQuery, limitQuery, total);
      var n := i / p.limit + 1;
      1 <= n <= p.totalPages && p.skip == (p.currentPage - 1) * p.limit && (n - 1) * p.limit <= i < n * p.limit
  {
    var p := Paginate(pageQuery, limitQuery, total);
    PageOfIndex(p.limit, p.totalPages, total, i);
  }

  lemma PageOfIndex(limit: int, pages: int, total: nat, i: nat)
    requires limit > 0 && i < total <= pages * limit
    ensures 1 <= i / limit + 1 <= pages
    ensures (i / limit) * limit <= i < (i / limit + 1) * limit
  {
  }

  /** A page given as a positive number in the query is the page served, and it starts after the earlier pages. */
  lemma RequestedPage(page: nat, limit: nat, total: nat)
    requires page > 0 && limit > 0
    ensures var p := Paginate(Some(Decimal(page)), Some(Decimal(limit)), total);
      p.currentPage == page && p.limit == limit && p.skip == (page - 1) * limit
  {
    ParseIntDecimal(page);
    ParseIntDecimal(limit);
  }

  /**
   * Any page query `parseInt` reads as NaN or 0 (missing, "0", "abc", "")
   * serves page 1 with no skip, and any such limit query serves 10 courses.
   */
  lemma DefaultPage(pageQuery: Option<string>, limitQuery: Option<string>, total: nat)
    ensures ParseInt(pageQuery).None? || ParseInt(pageQuery) == Some(0) ==>
      Paginate(pageQuery, limitQuery, total).currentPage == 1 && Paginate(pageQuery, limitQuery, total).skip == 0
    ensures ParseInt(limitQuery).None? || ParseInt(limitQuery) == Some(0) ==>
      Paginate(pageQuery, limitQuery, total).limit == 10
  {
  }

  // ---------------------------------------------------------------------------
  // the search pattern

  /** The three characters `\s*`: "any amount of whitespace" in a pattern. */
  const AnySpace: string := "\\s*"

  /** `title.replace(/\s/g, "\\s*")`: every whitespace character becomes `\s*`. */
  function SpacePattern(title: string): (r: string)
    ensures Strings.NoSpace(r)
    ensures Strings.NoSpace(title) ==> r == title
    ensures |r| >= |title|
  {
    if |title| == 0 then ""
    else (if Strings.IsJsSpace(title[0]) then AnySpace else [title[0]]) + SpacePattern(title[1..])
  }

  /** The rewrite works character by character: it distributes over concatenation. */
  lemma {:induction false} SpacePatternAppend(a: string, b: string)
    ensures SpacePattern(a + b) == SpacePattern(a) + SpacePattern(b)
  {
    if |a| == 0 {
      assert a + b == b;
    } else {
      var piece := if Strings.IsJsSpace(a[0]) then AnySpace else [a[0]];
      var rest := SpacePattern(a[1..]);
      assert (a + b)[0] == a[0] && (a + b)[1..] == a[1..] + b;
      assert SpacePattern(a + b) == piece + SpacePattern(a[1..] + b);
      SpacePatternAppend(a[1..], b);
      assert piece + (rest + SpacePattern(b)) == (piece + rest) + SpacePattern(b);
    }
  }

  /**
   * The pattern searchCourse builds from the `title` query (absent or empty
   * meaning ""), already URI-decoded: the whitespace rewrite, then
   * `.split(" ").join("\\s*")`.
   */
  function SearchPattern(title: Option<string>): (r: string)
  {
    var t := title.GetOr("");
    Strings.Join(Strings.Split(SpacePattern(t), ' '), AnySpace)
  }

  /** The split-and-join pass finds no space left and changes nothing. */
  lemma SearchPatternIsSpacePattern(title: Option<string>)
    ensures SearchPattern(title) == SpacePattern(title.GetOr(""))
  {
    var r := SpacePattern(title.GetOr(""));
    assert ' ' !in r by {
      assert Strings.IsJsSpace(' ');
    }
    Strings.SplitWithoutSeparator(r, ' ');
  }
}
