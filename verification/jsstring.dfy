/** The string operations the client applies to user input and to example
    sentences: `String.prototype.trim`, `split(c)[0]`, and the first match of
    the regular expression `/\(([^)]+)\)/`. */
module JsString {
  import opened Wrappers

  /** ECMAScript WhiteSpace and LineTerminator code points, the set `trim`
      removes: TAB, LF, VT, FF, CR, SPACE, NBSP, the other Zs separators
      (U+1680, U+2000-U+200A, U+202F, U+205F, U+3000), LS, PS and ZWNBSP. */
  predicate IsSpace(c: char)
    ensures c == ' ' || c == '\t' || c == '\n' || c == '\r' ==> IsSpace(c)
    ensures IsSpace(c) ==> c != '(' && c != ')' && c != '_'
  {
    var n := c as int;
    (9 <= n <= 13) || n == 0x20 || n == 0xA0 || n == 0x1680 || (0x2000 <= n <= 0x200A)
    || n == 0x2028 || n == 0x2029 || n == 0x202F || n == 0x205F || n == 0x3000 || n == 0xFEFF
  }

  predicate AllSpace(s: string) {
    forall k :: 0 <= k < |s| ==> IsSpace(s[k])
  }

  /** The first position at or after `i` that is not white space (`|s|` if none). */
  function SkipSpace(s: string, i: nat): (r: nat)
    requires i <= |s|
    ensures i <= r <= |s|
    ensures r < |s| ==> !IsSpace(s[r])
    ensures forall k :: i <= k < r ==> IsSpace(s[k])
    decreases |s| - i
  {
    if i < |s| && IsSpace(s[i]) then SkipSpace(s, i + 1) else i
  }

  /** The end of `s[lo..j]` once its trailing white space is dropped. */
  function SkipSpaceBack(s: string, lo: nat, j: nat): (r: nat)
    requires lo <= j <= |s|
    ensures lo <= r <= j
    ensures r > lo ==> !IsSpace(s[r - 1])
    ensures forall k :: r <= k < j ==> IsSpace(s[k])
    decreases j
  {
    if j > lo && IsSpace(s[j - 1]) then SkipSpaceBack(s, lo, j - 1) else j
  }

  /** Where the trimmed part of `s` starts. */
  function TrimStart(s: string): (i: nat)
    ensures i <= |s|
  {
    SkipSpace(s, 0)
  }

  /** Where the trimmed part of `s` ends. */
  function TrimEnd(s: string): (j: nat)
    ensures TrimStart(s) <= j <= |s|
  {
    SkipSpaceBack(s, TrimStart(s), |s|)
  }

  /** `s.trim()`: the part of `s` between its leading and its trailing white
      space; only white space is removed, and what is kept neither starts nor
      ends with white space. It is empty exactly when `s` is all white space. */
  function Trim(s: string): (r: string)
    ensures r == s[TrimStart(s)..TrimEnd(s)]
    ensures forall k :: 0 <= k < TrimStart(s) ==> IsSpace(s[k])
    ensures forall k :: TrimEnd(s) <= k < |s| ==> IsSpace(s[k])
    ensures r == [] || (!IsSpace(r[0]) && !IsSpace(r[|r| - 1]))
    ensures r == [] <==> AllSpace(s)
  {
    s[TrimStart(s)..TrimEnd(s)]
  }

  /** Trimming twice is trimming once. */
  lemma TrimIdempotent(s: string)
    ensures Trim(Trim(s)) == Trim(s)
  {
    var r := Trim(s);
    TrimOfTrimmed(r);
  }

  /** A string without leading or trailing white space is its own trim. */
  lemma TrimOfTrimmed(r: string)
    requires r == [] || (!IsSpace(r[0]) && !IsSpace(r[|r| - 1]))
    ensures Trim(r) == r
  {
    if r != [] {
      assert TrimStart(r) == 0;
      assert TrimEnd(r) == |r|;
    }
  }

  /** `s.split(sep)[0]`: the part of `s` before the first `sep`, or all of `s`
      when `sep` does not occur. */
  function BeforeFirst(s: string, sep: char): (r: string)
    ensures |r| <= |s| && r == s[..|r|]
    ensures sep !in r
    ensures |r| < |s| ==> s[|r|] == sep
  {
    if s == [] || s[0] == sep then [] else [s[0]] + BeforeFirst(s[1..], sep)
  }

  // ---- The regular expression /\(([^)]+)\)/ ----

  /** The regular expression matches at `open`, its closing parenthesis at
      `close`: an opening parenthesis, at least one character other than `)`,
      then `)`. */
  predicate GroupAt(s: string, open: int, close: int)
    ensures GroupAt(s, open, close) ==> 0 <= open + 1 < close <= |s| && ')' !in s[open + 1..close]
  {
    && 0 <= open && open + 1 < close < |s|
    && s[open] == '(' && s[close] == ')'
    && forall k :: open < k < close ==> s[k] != ')'
  }

  /** No match starts in [lo, hi). */
  ghost predicate NoGroupIn(s: string, lo: int, hi: int) {
    forall a, b :: lo <= a < hi ==> !GroupAt(s, a, b)
  }

  /** For a given start there is at most one match: its end is the first `)`. */
  lemma GroupEndUnique(s: string, open: int, c1: int, c2: int)
    requires GroupAt(s, open, c1) && GroupAt(s, open, c2)
    ensures c1 == c2
  {
  }

  /** The first `)` at or after `k`, or `|s|` when there is none. */
  function CloseFrom(s: string, k: nat): (r: nat)
    requires k <= |s|
    ensures k <= r <= |s|
    ensures r < |s| ==> s[r] == ')'
    ensures forall m :: k <= m < r ==> s[m] != ')'
    decreases |s| - k
  {
    if k == |s| || s[k] == ')' then k else CloseFrom(s, k + 1)
  }

  /** The leftmost match starting at or after `from`, as the regular-expression
      engine finds it by trying each start position in turn. */
  function MatchFrom(s: string, from: nat): (r: Option<(nat, nat)>)
    requires from <= |s|
    ensures r.Some? ==> from <= r.value.0 && GroupAt(s, r.value.0, r.value.1) && NoGroupIn(s, from, r.value.0)
    ensures r.None? ==> NoGroupIn(s, from, |s|)
    decreases |s| - from
  {
    if from == |s| then None
    else
      var close := CloseFrom(s, from + 1);
      if s[from] == '(' && from + 1 < close < |s| then Some((from, close))
      else
        MatchFrom(s, from + 1)
  }

  /** `s.match(/\(([^)]+)\)/)?.[1]`: the text inside the leftmost group, or None
      when the expression does not match. */
  function FirstGroup(s: string): (r: Option<string>)
    ensures r.None? <==> NoGroupIn(s, 0, |s|)
    ensures r.Some? ==> exists a, b :: GroupAt(s, a, b) && NoGroupIn(s, 0, a) && r.value == s[a + 1..b]
  {
    match MatchFrom(s, 0)
    case None => None
    case Some((a, b)) => Some(s[a + 1..b])
  }

  /** What the expression captures is never empty and contains no `)`. */
  lemma FirstGroupShape(s: string)
    requires FirstGroup(s).Some?
    ensures var t := FirstGroup(s).value; t != [] && ')' !in t
  {
    var a, b :| GroupAt(s, a, b) && NoGroupIn(s, 0, a) && FirstGroup(s).value == s[a + 1..b];
    var t := s[a + 1..b];
    forall k | 0 <= k < |t| ensures t[k] != ')' {
      assert t[k] == s[a + 1 + k];
    }
  }
}
