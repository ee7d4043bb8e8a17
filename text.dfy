/** String helpers shared by the Python back ends and the JavaScript front end:
    ASCII case mapping (Python `lower`/`upper`, JavaScript `toLowerCase`),
    the text after the last dot (`split('.')[-1]`, `split('.').pop()`),
    whitespace trimming (`strip`, `trim`), joining and decimal rendering. */
module Text {

  // ---------------------------------------------------------------- case mapping

  function LowerChar(c: char): (r: char)
    ensures 'A' <= c <= 'Z' ==> 'a' <= r <= 'z'
    ensures !('A' <= c <= 'Z') ==> r == c
  {
    if 'A' <= c <= 'Z' then (c as int + 32) as char else c
  }

  function UpperChar(c: char): (r: char)
    ensures 'a' <= c <= 'z' ==> 'A' <= r <= 'Z'
    ensures !('a' <= c <= 'z') ==> r == c
  {
    if 'a' <= c <= 'z' then (c as int - 32) as char else c
  }

  /** Lower-cases the ASCII letters of `s`; every other character is kept. */
  function ToLower(s: string): (r: string)
    ensures |r| == |s|
    ensures forall i :: 0 <= i < |s| ==> r[i] == LowerChar(s[i])
  {
    seq(|s|, i requires 0 <= i < |s| => LowerChar(s[i]))
  }

  /** Upper-cases the ASCII letters of `s`; every other character is kept. */
  function ToUpper(s: string): (r: string)
    ensures |r| == |s|
    ensures forall i :: 0 <= i < |s| ==> r[i] == UpperChar(s[i])
  {
    seq(|s|, i requires 0 <= i < |s| => UpperChar(s[i]))
  }

  // ---------------------------------------------------------------- the last dot

  /** The part of `s` after its last '.', or all of `s` when it has no dot: what both
      `s.split('.')[-1]` in Python and `s.split('.').pop()` in JavaScript return.
      The contract pins the result down: it is the suffix of `s` that holds no dot
      and is either all of `s` or preceded by a dot. */
  function AfterLastDot(s: string): (r: string)
    ensures '.' !in r
    ensures |r| <= |s| && r == s[|s| - |r|..]
    ensures |r| < |s| ==> s[|s| - |r| - 1] == '.'
    ensures |r| == |s| <==> '.' !in s
  {
    if |s| == 0 then ""
    else if s[|s| - 1] == '.' then ""
    else AfterLastDot(s[..|s| - 1]) + [s[|s| - 1]]
  }

  /** Lower-casing first or splitting first gives the same extension, so Python's
      `filename.lower().split('.')[-1]` and JavaScript's
      `name.split('.').pop().toLowerCase()` agree on every file name. */
  lemma {:induction false} AfterLastDotOfLower(s: string)
    ensures AfterLastDot(ToLower(s)) == ToLower(AfterLastDot(s))
  {
    if |s| > 0 {
      var init, c := s[..|s| - 1], s[|s| - 1];
      var ls := ToLower(s);
      assert ls[..|s| - 1] == ToLower(init) && ls[|s| - 1] == LowerChar(c);
      AfterLastDotOfLower(init);
      if c != '.' {
        ToLowerAppend(AfterLastDot(init), c);
      }
    }
  }

  lemma ToLowerAppend(s: string, c: char)
    ensures ToLower(s + [c]) == ToLower(s) + [LowerChar(c)]
  {
  }

  // ---------------------------------------------------------------- substrings

  predicate StartsWith(s: string, prefix: string) {
    |prefix| <= |s| && s[..|prefix|] == prefix
  }

  predicate EndsWith(s: string, suffix: string) {
    |suffix| <= |s| && s[|s| - |suffix|..] == suffix
  }

  /** Python's `sub in s` on strings. */
  predicate Contains(s: string, sub: string)
    decreases |s|
  {
    StartsWith(s, sub) || (|s| > 0 && Contains(s[1..], sub))
  }

  lemma {:induction false} ContainsAt(s: string, sub: string, k: nat)
    requires k + |sub| <= |s| && s[k..k + |sub|] == sub
    ensures Contains(s, sub)
    decreases k
  {
    if k > 0 {
      assert s[1..][k - 1..k - 1 + |sub|] == sub;
      ContainsAt(s[1..], sub, k - 1);
    }
  }

  // ---------------------------------------------------------------- whitespace

  /** The six ASCII whitespace characters (space, tab, line feed, carriage return,
      vertical tab, form feed). Python's `strip()` and JavaScript's `trim()` remove
      these and further characters that this predicate leaves out. */
  predicate IsSpace(c: char) {
    c == ' ' || c == '\t' || c == '\n' || c == '\r' || c == 11 as char || c == 12 as char
  }

  predicate AllSpace(s: string) {
    forall i :: 0 <= i < |s| ==> IsSpace(s[i])
  }

  function TrimStart(s: string): (r: string)
    ensures |r| <= |s| && r == s[|s| - |r|..]
    ensures |r| > 0 ==> !IsSpace(r[0])
    ensures AllSpace(s[..|s| - |r|])
  {
    if |s| > 0 && IsSpace(s[0]) then TrimStart(s[1..]) else s
  }

  function TrimEnd(s: string): (r: string)
    ensures |r| <= |s| && r == s[..|r|]
    ensures |r| > 0 ==> !IsSpace(r[|r| - 1])
    ensures AllSpace(s[|r|..])
  {
    if |s| > 0 && IsSpace(s[|s| - 1]) then TrimEnd(s[..|s| - 1]) else s
  }

  /** Python `str.strip()` / JavaScript `String.prototype.trim()` (ASCII whitespace). */
  function Strip(s: string): (r: string)
    ensures |r| <= |s|
    ensures |r| > 0 ==> !IsSpace(r[0]) && !IsSpace(r[|r| - 1])
  {
    TrimEnd(TrimStart(s))
  }

  /** A string strips to the empty string exactly when it is all whitespace. */
  lemma StripEmptyIffAllSpace(s: string)
    ensures Strip(s) == "" <==> AllSpace(s)
  {
    if AllSpace(s) {
      TrimStartAllSpace(s);
    } else {
      TrimStartKeepsNonSpace(s);
      TrimEndKeepsNonSpace(TrimStart(s));
    }
  }

  lemma {:induction false} TrimStartAllSpace(s: string)
    requires AllSpace(s)
    ensures TrimStart(s) == ""
  {
    if |s| > 0 {
      TrimStartAllSpace(s[1..]);
    }
  }

  /** A string with a non-space character keeps one after `TrimStart`. */
  lemma {:induction false} TrimStartKeepsNonSpace(s: string)
    requires !AllSpace(s)
    ensures |TrimStart(s)| > 0
  {
    if IsSpace(s[0]) {
      var i :| 0 <= i < |s| && !IsSpace(s[i]);
      assert s[1..][i - 1] == s[i];
      TrimStartKeepsNonSpace(s[1..]);
    }
  }

  /** A string that starts with a non-space character keeps it after `TrimEnd`. */
  lemma {:induction false} TrimEndKeepsNonSpace(t: string)
    requires |t| > 0 && !IsSpace(t[0])
    ensures TrimEnd(t) != ""
  {
    if |t| > 1 && IsSpace(t[|t| - 1]) {
      TrimEndKeepsNonSpace(t[..|t| - 1]);
    }
  }

  /** Trailing whitespace appended to a string is exactly what `TrimEnd` removes
      again. */
  lemma {:induction false} TrimEndAppendSpace(a: string, b: string)
    requires AllSpace(b)
    ensures TrimEnd(a + b) == TrimEnd(a)
  {
    if |b| > 0 {
      assert (a + b)[..|a + b| - 1] == a + b[..|b| - 1];
      TrimEndAppendSpace(a, b[..|b| - 1]);
    } else {
      assert a + b == a;
    }
  }

  /** `TrimEnd` never reaches into a prefix that ends in a non-space character. */
  lemma {:induction false} TrimEndKeepsPrefix(a: string, b: string)
    requires |a| > 0 && !IsSpace(a[|a| - 1])
    ensures TrimEnd(a + b) == a + TrimEnd(b)
  {
    if |b| > 0 && IsSpace(b[|b| - 1]) {
      assert (a + b)[..|a + b| - 1] == a + b[..|b| - 1];
      TrimEndKeepsPrefix(a, b[..|b| - 1]);
    } else if |b| == 0 {
      assert a + b == a;
    }
  }

  // ---------------------------------------------------------------- joining, numbers

  /** JavaScript `xs.join(sep)`. */
  function Join(xs: seq<string>, sep: string): (r: string)
    ensures xs == [] ==> r == ""
    ensures |xs| == 1 ==> r == xs[0]
  {
    if |xs| == 0 then ""
    else if |xs| == 1 then xs[0]
    else xs[0] + sep + Join(xs[1..], sep)
  }

  /** Every joined piece occurs in the joined text. */
  lemma {:induction false} JoinContiene(xs: seq<string>, sep: string, k: nat)
    requires k < |xs|
    ensures Contains(Join(xs, sep), xs[k])
  {
    var j := Join(xs, sep);
    if k == 0 {
      assert j[0..|xs[0]|] == xs[0];
      ContainsAt(j, xs[0], 0);
    } else {
      JoinContiene(xs[1..], sep, k - 1);
      ContainsTrasPrefijo(xs[0] + sep, Join(xs[1..], sep), xs[k]);
    }
  }

  /** Lower-casing keeps containment: if `s` contains `sub`, the lower-cased `s`
      contains the lower-cased `sub`. */
  lemma {:induction false} ContainsToLower(s: string, sub: string)
    requires Contains(s, sub)
    ensures Contains(ToLower(s), ToLower(sub))
    decreases |s|
  {
    if StartsWith(s, sub) {
      assert ToLower(s)[..|sub|] == ToLower(sub);
    } else {
      assert ToLower(s)[1..] == ToLower(s[1..]);
      ContainsToLower(s[1..], sub);
    }
  }

  /** What a text contains, it still contains after a prefix is put before it. */
  lemma {:induction false} ContainsTrasPrefijo(a: string, b: string, sub: string)
    requires Contains(b, sub)
    ensures Contains(a + b, sub)
    decreases |a|
  {
    if |a| == 0 {
      assert a + b == b;
    } else {
      assert (a + b)[1..] == a[1..] + b;
      ContainsTrasPrefijo(a[1..], b, sub);
    }
  }

  function DigitChar(d: nat): (c: char)
    requires d < 10
    ensures '0' <= c <= '9'
  {
    ('0' as int + d) as char
  }

  /** Decimal rendering of a natural number, as `str(n)` / template literals print it. */
  function NatToString(n: nat): (r: string)
    ensures |r| >= 1
    ensures forall i :: 0 <= i < |r| ==> '0' <= r[i] <= '9'
    ensures n >= 10 ==> r[0] != '0'
  {
    if n < 10 then [DigitChar(n)] else NatToString(n / 10) + [DigitChar(n % 10)]
  }

  /** Decimal rendering of an integer, with a leading '-' for negative values. */
  function IntToString(n: int): (r: string)
    ensures |r| >= 1
    ensures n < 0 <==> r[0] == '-'
  {
    if n < 0 then "-" + NatToString(-n) else NatToString(n)
  }
}
