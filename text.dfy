/** The string primitives the client leans on: `String.prototype.trim`,
    `toLowerCase` (for subreddit names), `includes`, and the decimal rendering
    of an integer inside a template literal. */
module Text {

  /** ECMAScript WhiteSpace and LineTerminator code points: exactly what `trim` strips. */
  predicate IsSpace(c: char)
  {
    c == '\t' || c == '\n' || c == '\U{000B}' || c == '\U{000C}' || c == '\r' ||
    c == ' ' || c == '\U{00A0}' || c == '\U{1680}' ||
    ('\U{2000}' <= c <= '\U{200A}') ||
    c == '\U{2028}' || c == '\U{2029}' || c == '\U{202F}' || c == '\U{205F}' ||
    c == '\U{3000}' || c == '\U{FEFF}'
  }

  predicate AllSpace(s: string)
  {
    forall k :: 0 <= k < |s| ==> IsSpace(s[k])
  }

  /** `s[i..j]`, known to occur in `s` at `i`. */
  function Slice(s: string, i: nat, j: nat): (r: string)
    requires i <= j <= |s|
    ensures r == s[i..j] && OccursAt(s, r, i)
  {
    assert s[i..i + (j - i)] == s[i..j];
    s[i..j]
  }

  /** How many white-space characters `s` starts with. */
  function LeadingSpaces(s: string): (n: nat)
    ensures n <= |s|
    ensures forall k :: 0 <= k < n ==> IsSpace(s[k])
    ensures n < |s| ==> !IsSpace(s[n])
    decreases |s|
  {
    if s == [] || !IsSpace(s[0]) then 0
    else
      var n := LeadingSpaces(s[1..]);
      assert forall k :: 1 <= k < n + 1 ==> s[k] == s[1..][k - 1];
      n + 1
  }

  /** How many white-space characters `s` ends with. */
  function TrailingSpaces(s: string): (n: nat)
    ensures n <= |s|
    ensures forall k :: |s| - n <= k < |s| ==> IsSpace(s[k])
    ensures n < |s| ==> !IsSpace(s[|s| - n - 1])
    decreases |s|
  {
    if s == [] || !IsSpace(s[|s| - 1]) then 0
    else
      var n := TrailingSpaces(s[..|s| - 1]);
      assert forall k :: |s| - 1 - n <= k < |s| - 1 ==> s[k] == s[..|s| - 1][k];
      n + 1
  }

  /** `String.prototype.trim`: the input is blank exactly when nothing is left, and
      what is left is a slice of the input that neither starts nor ends with white space. */
  function Trim(s: string): (r: string)
    ensures r == [] <==> AllSpace(s)
    ensures r != [] ==> !IsSpace(r[0]) && !IsSpace(r[|r| - 1])
    ensures Contains(s, r)
    ensures exists i, j :: 0 <= i <= j <= |s| && r == s[i..j] && AllSpace(s[..i]) && AllSpace(s[j..])
  {
    var i := LeadingSpaces(s);
    var j := if i == |s| then i else |s| - TrailingSpaces(s);
    TrimCutsMeet(s, i, j);
    TrimCutsBlank(s, i, j);
    if i < |s| then TrimCutsEnds(s, i, j); Slice(s, i, j) else Slice(s, i, j)
  }

  /** The two cuts of `Trim` are ordered and meet exactly on a blank input. */
  lemma TrimCutsMeet(s: string, i: nat, j: nat)
    requires i == LeadingSpaces(s)
    requires j == if i == |s| then i else |s| - TrailingSpaces(s)
    ensures i <= j <= |s|
    ensures i == j <==> AllSpace(s)
  {
    if i < |s| {
      assert !IsSpace(s[i]);
    }
  }

  /** What the cuts of `Trim` take off is white space. */
  lemma TrimCutsBlank(s: string, i: nat, j: nat)
    requires i == LeadingSpaces(s)
    requires j == if i == |s| then i else |s| - TrailingSpaces(s)
    ensures i <= |s| && j <= |s| && AllSpace(s[..i]) && AllSpace(s[j..])
  {
    assert forall k :: 0 <= k < i ==> s[..i][k] == s[k];
    if i < |s| {
      var m := TrailingSpaces(s);
      assert forall k :: 0 <= k < m ==> s[j..][k] == s[j + k];
    }
  }

  /** Otherwise the cuts sit on characters that are not white space. */
  lemma TrimCutsEnds(s: string, i: nat, j: nat)
    requires i == LeadingSpaces(s) && i < |s|
    requires j == |s| - TrailingSpaces(s)
    ensures i < j && !IsSpace(s[i]) && !IsSpace(s[j - 1])
  {
    var m := TrailingSpaces(s);
    assert j - 1 == |s| - m - 1;
  }

  lemma {:induction false} TrimIdempotent(s: string)
    ensures Trim(Trim(s)) == Trim(s)
  {
    var r := Trim(s);
    if r != [] {
      assert LeadingSpaces(r) == 0;
      assert r[0..] == r;
      assert TrailingSpaces(r) == 0;
    }
  }

  /** ASCII case folding; every subreddit name is ASCII. */
  function LowerChar(c: char): (r: char)
    ensures !('A' <= r <= 'Z')
    ensures 'A' <= c <= 'Z' ==> r as int == c as int + 32
    ensures !('A' <= c <= 'Z') ==> r == c
  {
    if 'A' <= c <= 'Z' then (c as int + 32) as char else c
  }

  /** `toLowerCase`, character by character: each ASCII capital becomes its small
      letter, every other character stays. */
  function ToLower(s: string): (r: string)
    ensures |r| == |s|
    ensures forall k :: 0 <= k < |s| ==> r[k] == LowerChar(s[k])
    ensures forall k :: 0 <= k < |s| && 'A' <= s[k] <= 'Z' ==> r[k] as int == s[k] as int + 32
    ensures forall k :: 0 <= k < |s| && !('A' <= s[k] <= 'Z') ==> r[k] == s[k]
  {
    seq(|s|, k requires 0 <= k < |s| => LowerChar(s[k]))
  }

  /** `s.includes(w)`. */
  predicate Contains(s: string, w: string)
  {
    exists i :: 0 <= i <= |s| - |w| && OccursAt(s, w, i)
  }

  /** `w` occurs in `s` starting at index `i`. */
  predicate OccursAt(s: string, w: string, i: int)
  {
    0 <= i <= |s| - |w| && s[i..i + |w|] == w
  }

  /** A word cannot occur in a string that lacks its first character. */
  lemma AbsentHead(s: string, w: string)
    requires w != [] && w[0] !in s
    ensures !Contains(s, w)
  {
  }

  /** `s` placed between `p` and `q`, as a template literal does; it occurs in the result. */
  function Around(p: string, s: string, q: string): (r: string)
    ensures r == p + s + q && OccursAt(r, s, |p|)
  {
    var r := p + s + q;
    assert r[|p|..|p| + |s|] == s;
    r
  }

  /** A word occurs in `p + s + q` exactly when it occurs in `s`, provided neither
      frame holds the word's first character and the word does not hold the
      first character of the right-hand frame. This is how the text of an error
      message built around a subreddit name inherits that name's words. */
  lemma {:induction false} Framed(p: string, s: string, q: string, w: string)
    requires w != [] && w[0] !in p && w[0] !in q
    requires q == [] || q[0] !in w
    ensures Contains(p + s + q, w) <==> Contains(s, w)
  {
    var t := p + s + q;
    if Contains(t, w) {
      var i :| 0 <= i <= |t| - |w| && OccursAt(t, w, i);
      assert t[i] == w[0];
      assert |p| <= i < |p| + |s|;
      if q != [] {
        assert t[|p| + |s|] == q[0];
        assert t[i..i + |w|] == w;
      }
      assert i + |w| <= |p| + |s|;
      assert s[i - |p|..i - |p| + |w|] == t[i..i + |w|];
      assert OccursAt(s, w, i - |p|);
    }
    if Contains(s, w) {
      var i :| 0 <= i <= |s| - |w| && OccursAt(s, w, i);
      assert t[|p| + i..|p| + i + |w|] == s[i..i + |w|];
      assert OccursAt(t, w, |p| + i);
    }
  }

  predicate IsDigit(c: char)
  {
    '0' <= c <= '9'
  }

  function Digit(d: nat): (c: char)
    requires d < 10
    ensures IsDigit(c) && c as int - '0' as int == d
  {
    ('0' as int + d) as char
  }

  /** The decimal numeral of `n`, as a template literal renders a whole number:
      digits only, no leading zero. */
  function Decimal(n: nat): (r: string)
    ensures r != [] && (r[0] == '0' ==> n == 0)
    ensures forall k :: 0 <= k < |r| ==> IsDigit(r[k])
    decreases n
  {
    if n < 10 then [Digit(n)] else Decimal(n / 10) + [Digit(n % 10)]
  }

  /** The number a string of digits denotes. */
  function DecimalValue(s: string): nat
    requires forall k :: 0 <= k < |s| ==> IsDigit(s[k])
  {
    if s == [] then 0
    else
      assert IsDigit(s[|s| - 1]);
      10 * DecimalValue(s[..|s| - 1]) + (s[|s| - 1] as int - '0' as int)
  }

  /** Rendering a number and reading it back gives the number. */
  lemma {:induction false} DecimalRoundTrip(n: nat)
    ensures DecimalValue(Decimal(n)) == n
  {
    if n >= 10 {
      DecimalRoundTrip(n / 10);
      var r := Decimal(n);
      assert r[..|r| - 1] == Decimal(n / 10);
    }
  }

  /** A numeral contains no character other than a digit. */
  lemma DecimalHasOnlyDigits(n: nat, c: char)
    requires !IsDigit(c)
    ensures c !in Decimal(n)
  {
  }
}
