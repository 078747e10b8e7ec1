/**
 * The JavaScript string operations the services rely on: `trim`,
 * `toLowerCase`, `startsWith`, `split(c).pop()`, `join` and the
 * extension-stripping regular expression used for upload names.
 */
module Text {

  import opened Outcomes

  /** ECMAScript WhiteSpace and LineTerminator code points, the set `trim` removes. */
  predicate IsJsSpace(c: char)
  {
    c == '\t' || c == '\n' || c == '\U{000B}' || c == '\U{000C}' || c == '\r' || c == ' '
    || c == '\U{00A0}' || c == '\U{1680}' || ('\U{2000}' <= c <= '\U{200A}')
    || c == '\U{2028}' || c == '\U{2029}' || c == '\U{202F}' || c == '\U{205F}'
    || c == '\U{3000}' || c == '\U{FEFF}'
  }

  predicate AllSpace(s: string)
  {
    forall i :: 0 <= i < |s| ==> IsJsSpace(s[i])
  }

  /** The first index at or after `i` that is not white space (`|s|` if none). */
  function SkipSpaces(s: string, i: nat): (k: nat)
    requires i <= |s|
    ensures i <= k <= |s|
    ensures forall j :: i <= j < k ==> IsJsSpace(s[j])
    ensures k == |s| || !IsJsSpace(s[k])
    decreases |s| - i
  {
    if i < |s| && IsJsSpace(s[i]) then SkipSpaces(s, i + 1) else i
  }

  /** The end of `s[lo..j]` once its trailing white space is dropped. */
  function DropSpaces(s: string, lo: nat, j: nat): (k: nat)
    requires lo <= j <= |s|
    ensures lo <= k <= j
    ensures forall x :: k <= x < j ==> IsJsSpace(s[x])
    ensures k == lo || !IsJsSpace(s[k - 1])
    decreases j
  {
    if lo < j && IsJsSpace(s[j - 1]) then DropSpaces(s, lo, j - 1) else j
  }

  /** `String.prototype.trim`: white space removed at both edges. */
  function Trim(s: string): (r: string)
    ensures |r| <= |s|
    ensures r == [] || (!IsJsSpace(r[0]) && !IsJsSpace(r[|r| - 1]))
  {
    var a := SkipSpaces(s, 0);
    s[a..DropSpaces(s, a, |s|)]
  }

  /**
   * What trim keeps is a run of the input, and what it drops on either side
   * is white space.
   */
  lemma TrimIsInfix(s: string)
    ensures var i := SkipSpaces(s, 0);
      i + |Trim(s)| <= |s| && Trim(s) == s[i..i + |Trim(s)|]
      && AllSpace(s[..i]) && AllSpace(s[i + |Trim(s)|..])
  {
    var i := SkipSpaces(s, 0);
    var k := DropSpaces(s, i, |s|);
    assert forall x :: 0 <= x < |s[k..]| ==> s[k..][x] == s[k + x];
  }

  /** `!s?.trim()` for a string: empty after trimming. */
  predicate IsBlank(s: string)
  {
    Trim(s) == []
  }

  lemma BlankIffAllSpace(s: string)
    ensures IsBlank(s) <==> AllSpace(s)
  {
    var i := SkipSpaces(s, 0);
    if i < |s| {
      assert DropSpaces(s, i, |s|) > i;
    }
  }

  /** A string with no white space at either edge is its own trim. */
  lemma TrimNoEdges(r: string)
    requires r == [] || (!IsJsSpace(r[0]) && !IsJsSpace(r[|r| - 1]))
    ensures Trim(r) == r
  {
  }

  lemma TrimIdempotent(s: string)
    ensures Trim(Trim(s)) == Trim(s)
  {
    TrimNoEdges(Trim(s));
  }

  predicate IsUpperAscii(c: char) { 'A' <= c <= 'Z' }

  function LowerChar(c: char): (d: char)
    ensures !IsUpperAscii(d)
    ensures IsUpperAscii(c) ==> d as int == c as int + 32
    ensures !IsUpperAscii(c) ==> d == c
  {
    if IsUpperAscii(c) then (c as int + 32) as char else c
  }

  predicate IsLower(s: string)
  {
    forall i :: 0 <= i < |s| ==> !IsUpperAscii(s[i])
  }

  /** `toLowerCase` on the ASCII range. */
  function ToLower(s: string): (r: string)
    ensures |r| == |s| && IsLower(r)
    ensures forall i :: 0 <= i < |s| ==> r[i] == LowerChar(s[i])
  {
    if s == [] then [] else [LowerChar(s[0])] + ToLower(s[1..])
  }

  lemma LowerFixed(s: string)
    requires IsLower(s)
    ensures ToLower(s) == s
  {
  }

  lemma TrimKeepsLower(s: string)
    requires IsLower(s)
    ensures IsLower(Trim(s))
  {
    var i := SkipSpaces(s, 0);
    var r := Trim(s);
    assert forall j :: 0 <= j < |r| ==> r[j] == s[i + j];
  }

  /** `sub` occurs in `s` starting at offset `i`. */
  predicate OccursAt(s: string, sub: string, i: int)
  {
    0 <= i <= |s| - |sub| && s[i..i + |sub|] == sub
  }

  /** `s.includes(sub)`: `sub` occurs in `s` at some offset. */
  predicate Contains(s: string, sub: string)
  {
    exists i :: 0 <= i <= |s| - |sub| && OccursAt(s, sub, i)
  }

  /** A `search?.trim()` condition: the trimmed term, when the search is given and not blank. */
  function SearchTerm(search: Option<string>): (r: Option<string>)
    ensures r.Some? <==> search.Some? && !IsBlank(search.value)
    ensures r.Some? ==> r.value == Trim(search.value)
  {
    if search.Some? && !IsBlank(search.value) then Some(Trim(search.value)) else None
  }

  /** A `contains` filter in `insensitive` mode, folding the ASCII letters. */
  predicate ContainsFold(s: string, sub: string)
  {
    Contains(ToLower(s), ToLower(sub))
  }

  predicate StartsWith(s: string, prefix: string)
  {
    |prefix| <= |s| && s[..|prefix|] == prefix
  }

  /** `s.split(c).pop()`: the part after the last `c`, or all of `s` when it has none. */
  function LastSegment(s: string, c: char): (r: string)
    ensures |r| <= |s| && r == s[|s| - |r|..]
    ensures c !in r
    ensures |r| < |s| ==> s[|s| - |r| - 1] == c
  {
    if s == [] then []
    else if s[|s| - 1] == c then []
    else LastSegment(s[..|s| - 1], c) + [s[|s| - 1]]
  }

  predicate NoDotOrSlash(t: string)
  {
    |t| > 0 && '.' !in t && '/' !in t
  }

  /**
   * `s.replace(/\.[^/.]+$/, '')`: drop a final `.` followed by one or more
   * characters none of which is `/` or `.`.
   */
  function StripExtension(s: string): (r: string)
    ensures |r| <= |s| && r == s[..|r|]
    ensures r != s ==> |r| + 1 < |s| && s[|r|] == '.' && NoDotOrSlash(s[|r| + 1..])
  {
    var tail := LastSegment(s, '.');
    if |tail| < |s| && tail != [] && '/' !in tail then s[..|s| - |tail| - 1] else s
  }

  /** A `.` followed by a dot-free, slash-free tail is the last `.` of the string. */
  lemma {:induction false} LastDotSegment(s: string, k: nat)
    requires k < |s| - 1 && s[k] == '.' && NoDotOrSlash(s[k + 1..])
    ensures LastSegment(s, '.') == s[k + 1..]
    decreases |s|
  {
    var n := |s|;
    assert s[n - 1] == s[k + 1..][n - 2 - k];
    var p := s[..n - 1];
    if k + 1 == n - 1 {
      assert p[|p| - 1] == '.';
    } else {
      assert p[k + 1..] == s[k + 1..n - 1];
      LastDotSegment(p, k);
      assert s[k + 1..] == p[k + 1..] + [s[n - 1]];
    }
  }

  /** StripExtension changes the name exactly when the regular expression matches. */
  lemma StripExtensionMatches(s: string)
    ensures StripExtension(s) != s <==>
      exists k :: 0 <= k < |s| - 1 && s[k] == '.' && NoDotOrSlash(s[k + 1..])
  {
    if exists k :: 0 <= k < |s| - 1 && s[k] == '.' && NoDotOrSlash(s[k + 1..]) {
      var k :| 0 <= k < |s| - 1 && s[k] == '.' && NoDotOrSlash(s[k + 1..]);
      LastDotSegment(s, k);
    }
  }

  /** `s.split(c)[0]`: the part before the first `c`, or all of `s` when it has none. */
  function FirstSegment(s: string, c: char): (r: string)
    ensures |r| <= |s| && r == s[..|r|]
    ensures c !in r
    ensures |r| < |s| ==> s[|r|] == c
  {
    if s == [] || s[0] == c then [] else [s[0]] + FirstSegment(s[1..], c)
  }

  /** `s.split(c)[1]`: the part between the first and the second `c`; absent when `s` has no `c`. */
  function SecondSegment(s: string, c: char): (r: Option<string>)
    ensures r.None? <==> c !in s
    ensures r.Some? ==> (|FirstSegment(s, c)| < |s|
      && r.value == FirstSegment(s[|FirstSegment(s, c)| + 1..], c))
  {
    var head := FirstSegment(s, c);
    if |head| == |s| then None else Some(FirstSegment(s[|head| + 1..], c))
  }

  /** The part before the first separator is the text written before it. */
  lemma {:induction false} FirstSegmentOf(a: string, c: char, t: string)
    requires c !in a
    ensures FirstSegment(a + t, c) == (if t == [] || t[0] == c then a else a + FirstSegment(t, c))
    decreases |a|
  {
    if a == [] {
      assert a + t == t;
    } else {
      assert (a + t)[1..] == a[1..] + t;
      FirstSegmentOf(a[1..], c, t);
    }
  }

  /** Splitting `a + c + b` at `c` gives back `b` as the second field when neither part holds `c`. */
  lemma SecondSegmentOfJoin(a: string, c: char, b: string)
    requires c !in a && c !in b
    ensures SecondSegment(a + [c] + b, c) == Some(b)
  {
    var s := a + [c] + b;
    FirstSegmentOf(a, c, [c] + b);
    assert a + ([c] + b) == s;
    assert s[|a| + 1..] == b;
    FirstSegmentOf(b, c, []);
    assert b + [] == b;
  }

  /** `Array.prototype.join(sep)`. */
  function Join(parts: seq<string>, sep: string): (r: string)
    ensures parts == [] ==> r == []
    ensures |parts| == 1 ==> r == parts[0]
  {
    if parts == [] then []
    else if |parts| == 1 then parts[0]
    else Join(parts[..|parts| - 1], sep) + sep + parts[|parts| - 1]
  }

  /** Joining two lists is joining each, with one separator between them. */
  lemma {:induction false} JoinAppend(p: seq<string>, q: seq<string>, sep: string)
    requires p != [] && q != []
    ensures Join(p + q, sep) == Join(p, sep) + sep + Join(q, sep)
    decreases |q|
  {
    var s := p + q;
    var last := q[|q| - 1];
    var q' := q[..|q| - 1];
    assert s[..|s| - 1] == p + q' && s[|s| - 1] == last;
    assert Join(s, sep) == Join(p + q', sep) + sep + last;
    if q' != [] {
      JoinAppend(p, q', sep);
      assert Join(q, sep) == Join(q', sep) + sep + last;
    } else {
      assert p + q' == p;
    }
  }

  /** Two parts are joined with one separator. */
  lemma JoinTwo(a: string, b: string, sep: string)
    ensures Join([a, b], sep) == a + sep + b
  {
    assert [a, b][..1] == [a];
  }

  /** Read from the front: the first part, the separator, then the rest joined. */
  lemma JoinFront(parts: seq<string>, sep: string)
    requires |parts| >= 2
    ensures Join(parts, sep) == parts[0] + sep + Join(parts[1..], sep)
  {
    assert parts == [parts[0]] + parts[1..];
    JoinAppend([parts[0]], parts[1..], sep);
  }

  // ---------------------------------------------------------------------------
  // Decimal numerals: `n.toString()` for a natural number

  function DigitChar(d: nat): char
    requires d < 10
  {
    (48 + d) as char
  }

  predicate IsDigit(c: char) { 48 <= c as int <= 57 }

  function Decimal(n: nat): (s: string)
    ensures |s| >= 1 && forall i :: 0 <= i < |s| ==> IsDigit(s[i])
    ensures n >= 10 ==> s[0] != DigitChar(0)
  {
    if n < 10 then [DigitChar(n)] else Decimal(n / 10) + [DigitChar(n % 10)]
  }

  /** Reading a string of digits back as a number. */
  function DigitsValue(s: string): nat
    requires forall i :: 0 <= i < |s| ==> IsDigit(s[i])
  {
    if s == [] then 0
    else
      assert IsDigit(s[|s| - 1]);
      10 * DigitsValue(s[..|s| - 1]) + (s[|s| - 1] as int - 48)
  }

  /** The decimal text reads back as the number it was made from. */
  lemma {:induction false} DecimalRoundTrip(n: nat)
    ensures DigitsValue(Decimal(n)) == n
  {
    if n >= 10 {
      var s := Decimal(n);
      assert s[..|s| - 1] == Decimal(n / 10);
      DecimalRoundTrip(n / 10);
    }
  }

  /** A number of k digits prints as exactly k characters. */
  lemma {:induction false} DecimalLength(n: nat, k: nat)
    requires k >= 1
    requires Pow10(k - 1) <= n < Pow10(k) || (k == 1 && n < 10)
    ensures |Decimal(n)| == k
  {
    if k > 1 {
      DecimalLength(n / 10, k - 1);
    }
  }

  function Pow10(k: nat): (p: nat)
    ensures p >= 1
  {
    if k == 0 then 1 else 10 * Pow10(k - 1)
  }
}
