/** The handful of Python `str` operations the agent's text protocol is built
    from, each stated for what it returns: `in`, `find`, `split(sep)[0]`,
    `split(sep)[1]`, `strip()`, `strip(chars)`, `startswith`, `endswith`,
    `sep.join(parts)` and the decimal rendering of a number. */
module Text {

  datatype Option<+T> = None | Some(value: T)

  /** The characters `str.isspace()` accepts, which are also the characters
      the regex class `\s` matches in a `str` pattern. */
  const Whitespace: set<char> := {
    ' ', '\t', '\n', '\r', '\U{B}', '\U{C}', '\U{1C}', '\U{1D}', '\U{1E}', '\U{1F}',
    '\U{85}', '\U{A0}', '\U{1680}', '\U{2000}', '\U{2001}', '\U{2002}', '\U{2003}',
    '\U{2004}', '\U{2005}', '\U{2006}', '\U{2007}', '\U{2008}', '\U{2009}', '\U{200A}',
    '\U{2028}', '\U{2029}', '\U{202F}', '\U{205F}', '\U{3000}'
  }

  /** `m` occurs in `s` starting at index `i`. */
  predicate OccursAt(s: string, m: string, i: nat) {
    i + |m| <= |s| && s[i..i + |m|] == m
  }

  /** `s.find(m, i)`: the first index at or after `i` where `m` occurs. */
  function FindFrom(s: string, m: string, i: nat): (r: Option<nat>)
    ensures r.Some? ==> i <= r.value && OccursAt(s, m, r.value)
    ensures r.Some? ==> forall k :: i <= k < r.value ==> !OccursAt(s, m, k)
    ensures r.None? ==> forall k :: i <= k ==> !OccursAt(s, m, k)
    decreases |s| - i
  {
    if i + |m| > |s| then None
    else if s[i..i + |m|] == m then Some(i)
    else FindFrom(s, m, i + 1)
  }

  /** Python's `m in s`. */
  predicate Contains(s: string, m: string) {
    FindFrom(s, m, 0).Some?
  }

  lemma ContainsIff(s: string, m: string)
    ensures Contains(s, m) <==> exists k :: OccursAt(s, m, k)
  {
  }

  /** An occurrence inside a slice is an occurrence in the whole string. */
  lemma OccursInSlice(s: string, a: nat, b: nat, m: string, k: nat)
    requires a <= b <= |s|
    requires OccursAt(s[a..b], m, k)
    ensures OccursAt(s, m, a + k)
  {
    var t := s[a..b];
    forall j | 0 <= j < |m| ensures s[a + k + j] == m[j] {
      assert t[k..k + |m|][j] == t[k + j];
    }
  }

  lemma ContainsSlice(s: string, a: nat, b: nat, m: string)
    requires a <= b <= |s|
    requires Contains(s[a..b], m)
    ensures Contains(s, m)
  {
    var k := FindFrom(s[a..b], m, 0).value;
    OccursInSlice(s, a, b, m, k);
    ContainsIff(s, m);
  }

  /** No occurrence of `m` lies wholly inside `s[a..b]` when none starts in `[a, b)`. */
  lemma NoOccurrenceInSlice(s: string, a: nat, b: nat, m: string)
    requires a <= b <= |s| && |m| > 0
    requires forall k :: a <= k < b ==> !OccursAt(s, m, k)
    ensures !Contains(s[a..b], m)
  {
    if Contains(s[a..b], m) {
      var k := FindFrom(s[a..b], m, 0).value;
      OccursInSlice(s, a, b, m, k);
    }
  }

  /** The first index where `m` occurs, given that it does. */
  function IndexOf(s: string, m: string): (i: nat)
    requires Contains(s, m)
    ensures OccursAt(s, m, i)
    ensures forall k: nat :: k < i ==> !OccursAt(s, m, k)
  {
    FindFrom(s, m, 0).value
  }

  /** `s.split(m)[1]`: the text between the first occurrence of `m` and the
      second one, or the end of `s` when `m` occurs only once. */
  function SplitSecond(s: string, m: string): (r: string)
    requires |m| > 0 && Contains(s, m)
    ensures var start := IndexOf(s, m) + |m|;
      && start + |r| <= |s|
      && r == s[start..start + |r|]
      && (start + |r| == |s| || OccursAt(s, m, start + |r|))
      && (forall k :: start <= k < start + |r| ==> !OccursAt(s, m, k))
      && !Contains(r, m)
  {
    var start := IndexOf(s, m) + |m|;
    match FindFrom(s, m, start)
    case None =>
      NoOccurrenceInSlice(s, start, |s|, m);
      s[start..]
    case Some(j) =>
      NoOccurrenceInSlice(s, start, j, m);
      s[start..j]
  }

  /** `s.split(m)[0]`: the text before the first occurrence of `m`, or all
      of `s` when `m` does not occur. */
  function SplitFirst(s: string, m: string): (r: string)
    requires |m| > 0
    ensures |r| <= |s| && r == s[..|r|]
    ensures |r| == |s| || OccursAt(s, m, |r|)
    ensures forall k :: 0 <= k < |r| ==> !OccursAt(s, m, k)
    ensures !Contains(r, m)
    ensures !Contains(s, m) ==> r == s
  {
    match FindFrom(s, m, 0)
    case None =>
      NoOccurrenceInSlice(s, 0, |s|, m);
      assert s[0..|s|] == s;
      s
    case Some(j) =>
      NoOccurrenceInSlice(s, 0, j, m);
      assert s[0..j] == s[..j];
      s[..j]
  }

  /** `s.lstrip(chars)`. */
  function TrimLeft(s: string, chars: set<char>): (r: string)
    ensures |r| <= |s| && r == s[|s| - |r|..]
    ensures forall i :: 0 <= i < |s| - |r| ==> s[i] in chars
    ensures r != [] ==> r[0] !in chars
  {
    if s != [] && s[0] in chars then TrimLeft(s[1..], chars) else s
  }

  /** `s.rstrip(chars)`. */
  function TrimRight(s: string, chars: set<char>): (r: string)
    ensures |r| <= |s| && r == s[..|r|]
    ensures forall i :: |r| <= i < |s| ==> s[i] in chars
    ensures r != [] ==> r[|r| - 1] !in chars
  {
    if s != [] && s[|s| - 1] in chars then TrimRight(s[..|s| - 1], chars) else s
  }

  /** `s.strip(chars)`: `s` with every leading and trailing character from
      `chars` removed, and nothing else. */
  function Strip(s: string, chars: set<char>): (r: string)
    ensures r != [] ==> r[0] !in chars && r[|r| - 1] !in chars
    ensures var a := |s| - |TrimLeft(s, chars)|;
      && a + |r| <= |s|
      && r == s[a..a + |r|]
      && (forall i :: 0 <= i < a ==> s[i] in chars)
      && (forall i :: a + |r| <= i < |s| ==> s[i] in chars)
  {
    var left := TrimLeft(s, chars);
    var r := TrimRight(left, chars);
    SuffixPrefix(s, left, r, chars);
    r
  }

  /** A prefix `r` of a suffix `left` of `s` is a slice of `s`, and what
      follows `r` inside `left` follows it inside `s`. */
  lemma SuffixPrefix(s: string, left: string, r: string, chars: set<char>)
    requires |left| <= |s| && left == s[|s| - |left|..]
    requires |r| <= |left| && r == left[..|r|]
    requires forall i :: |r| <= i < |left| ==> left[i] in chars
    ensures var a := |s| - |left|;
      && r == s[a..a + |r|]
      && (forall i :: a + |r| <= i < |s| ==> s[i] in chars)
  {
    var a := |s| - |left|;
    forall i | a + |r| <= i < |s| ensures s[i] in chars {
      assert s[i] == left[i - a];
    }
  }

  /** `s.strip()` with no argument. */
  function StripWs(s: string): (r: string)
    ensures r != [] ==> r[0] !in Whitespace && r[|r| - 1] !in Whitespace
    ensures |r| <= |s|
  {
    Strip(s, Whitespace)
  }

  /** Stripping twice is stripping once. */
  lemma StripIdempotent(s: string, chars: set<char>)
    ensures Strip(Strip(s, chars), chars) == Strip(s, chars)
  {
    var r := Strip(s, chars);
    assert TrimLeft(r, chars) == r;
    assert TrimRight(r, chars) == r;
  }

  lemma StripWsIdempotent(s: string)
    ensures StripWs(StripWs(s)) == StripWs(s)
  {
    StripIdempotent(s, Whitespace);
  }

  /** `not s.strip()`: the string is empty or all whitespace. */
  predicate IsBlank(s: string) {
    forall i :: 0 <= i < |s| ==> s[i] in Whitespace
  }

  lemma StripWsEmptyIffBlank(s: string)
    ensures StripWs(s) == [] <==> IsBlank(s)
  {
    var r := StripWs(s);
    var a := |s| - |TrimLeft(s, Whitespace)|;
    if r != [] {
      assert s[a] == r[0];
    }
  }

  /** `[x.strip() for x in parts]`. */
  function StripEach(parts: seq<string>): (r: seq<string>)
    ensures |r| == |parts|
    ensures forall i :: 0 <= i < |parts| ==> r[i] == StripWs(parts[i])
  {
    seq(|parts|, i requires 0 <= i < |parts| => StripWs(parts[i]))
  }

  /** Stripping cannot introduce an occurrence of a marker. */
  lemma StripKeepsAbsent(s: string, chars: set<char>, m: string)
    requires !Contains(s, m)
    ensures !Contains(Strip(s, chars), m)
  {
    var r := Strip(s, chars);
    var a := |s| - |TrimLeft(s, chars)|;
    if Contains(r, m) {
      ContainsSlice(s, a, a + |r|, m);
    }
  }

  /** Python's `s.startswith(p)`. */
  predicate StartsWith(s: string, p: string) {
    |p| <= |s| && s[..|p|] == p
  }

  /** Python's `s.endswith(p)`. */
  predicate EndsWith(s: string, p: string) {
    |p| <= |s| && s[|s| - |p|..] == p
  }

  /** The index just past the run of characters from `chars` that starts at
      `i` (the greedy regex loop `[chars]*`). */
  function SkipRun(s: string, i: nat, chars: set<char>): (j: nat)
    requires i <= |s|
    ensures i <= j <= |s|
    ensures forall k :: i <= k < j ==> s[k] in chars
    ensures j == |s| || s[j] !in chars
    decreases |s| - i
  {
    if i < |s| && s[i] in chars then SkipRun(s, i + 1, chars) else i
  }

  /** `sep.join(parts)`. */
  function Join(parts: seq<string>, sep: string): (r: string)
    ensures parts == [] ==> r == []
    ensures |parts| == 1 ==> r == parts[0]
  {
    if |parts| == 0 then []
    else if |parts| == 1 then parts[0]
    else Join(parts[..|parts| - 1], sep) + sep + parts[|parts| - 1]
  }

  /** Each part is found in the joined text, in order, separated by `sep`. */
  lemma {:induction false} JoinAt(parts: seq<string>, sep: string, i: nat)
    requires i < |parts|
    ensures var start := Offset(parts, sep, i);
      start + |parts[i]| <= |Join(parts, sep)| && Join(parts, sep)[start..start + |parts[i]|] == parts[i]
    decreases |parts|
  {
    var n := |parts|;
    if n > 1 {
      var init := parts[..n - 1];
      var prefix := Join(init, sep);
      if i < n - 1 {
        JoinAt(init, sep, i);
        OffsetPrefix(parts, sep, i);
        assert Join(parts, sep) == prefix + sep + parts[n - 1];
      } else {
        OffsetLast(parts, sep);
      }
    }
  }

  /** Where part `i` starts in `Join(parts, sep)`. */
  function Offset(parts: seq<string>, sep: string, i: nat): nat
    requires i < |parts|
  {
    if i == 0 then 0 else Offset(parts, sep, i - 1) + |parts[i - 1]| + |sep|
  }

  lemma OffsetPrefix(parts: seq<string>, sep: string, i: nat)
    requires i < |parts| - 1
    ensures Offset(parts[..|parts| - 1], sep, i) == Offset(parts, sep, i)
  {
    if i > 0 { OffsetPrefix(parts, sep, i - 1); }
  }

  lemma {:induction false} OffsetLast(parts: seq<string>, sep: string)
    requires |parts| > 1
    ensures |Join(parts, sep)| == Offset(parts, sep, |parts| - 1) + |parts[|parts| - 1]|
    decreases |parts|
  {
    var n := |parts|;
    var init := parts[..n - 1];
    if n > 2 {
      OffsetLast(init, sep);
      OffsetPrefix(parts, sep, n - 2);
    }
  }

  /** Python's `str(n)` for a non-negative integer. */
  function NatToString(n: nat): (r: string)
    ensures r != [] && forall i :: 0 <= i < |r| ==> '0' <= r[i] <= '9'
    ensures |r| > 1 ==> r[0] != '0'
  {
    if n < 10 then [Digit(n)] else NatToString(n / 10) + [Digit(n % 10)]
  }

  function Digit(d: nat): (c: char)
    requires d < 10
    ensures '0' <= c <= '9'
  {
    ['0', '1', '2', '3', '4', '5', '6', '7', '8', '9'][d]
  }

  /** The value a string of decimal digits denotes. */
  function DigitsValue(s: string): nat
    requires forall i :: 0 <= i < |s| ==> '0' <= s[i] <= '9'
  {
    if s == [] then 0 else 10 * DigitsValue(s[..|s| - 1]) + (s[|s| - 1] as int - '0' as int)
  }

  /** `NatToString` renders `n` and nothing else: reading it back gives `n`. */
  lemma {:induction false} NatToStringRoundTrip(n: nat)
    ensures DigitsValue(NatToString(n)) == n
  {
    if n >= 10 {
      NatToStringRoundTrip(n / 10);
      var r := NatToString(n);
      assert r[..|r| - 1] == NatToString(n / 10);
    }
  }
}
