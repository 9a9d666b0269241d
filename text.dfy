/**
 * The Python `str` operations the conversation engine relies on, as
 * functions over `string` (a sequence of Unicode scalar values, like a
 * Python `str` of code points): `sub in s`, `s.index(c)`, `s.split(sep)`,
 * `sep.join(parts)`, `s.strip()`, `s.strip(chars)`, `s.replace(c, '')`,
 * `c * n`, `s[:n]` and `f"{n}"`.
 */
module Text {
  import opened Wrappers

  /** The characters for which Python's `str.isspace()` holds; `str.strip()` removes them. */
  const Whitespace: set<char> := {
    '\t', '\n', '\U{0B}', '\U{0C}', '\r', '\U{1C}', '\U{1D}', '\U{1E}', '\U{1F}', ' ',
    '\U{85}', '\U{A0}', '\U{1680}',
    '\U{2000}', '\U{2001}', '\U{2002}', '\U{2003}', '\U{2004}', '\U{2005}',
    '\U{2006}', '\U{2007}', '\U{2008}', '\U{2009}', '\U{200A}',
    '\U{2028}', '\U{2029}', '\U{202F}', '\U{205F}', '\U{3000}'
  }

  // ---------------------------------------------------------------------------
  // Substring search: `sub in s` and `s.index(sub)`
  // ---------------------------------------------------------------------------

  /** `sub` occurs in `s` starting at index `i`. */
  predicate OccursAt(s: string, sub: string, i: nat) {
    i + |sub| <= |s| && s[i..i + |sub|] == sub
  }

  /** The first occurrence of `sub` in `s` at or after `from`. */
  function FindFrom(s: string, sub: string, from: nat): (r: Option<nat>)
    decreases |s| - from
    ensures r.Some? ==> from <= r.value && OccursAt(s, sub, r.value)
    ensures r.Some? ==> forall j :: from <= j < r.value ==> !OccursAt(s, sub, j)
    ensures r.None? ==> forall j :: from <= j ==> !OccursAt(s, sub, j)
  {
    if from + |sub| > |s| then None
    else if OccursAt(s, sub, from) then Some(from)
    else FindFrom(s, sub, from + 1)
  }

  /** Python's `s.find(sub)`, with `None` for -1. */
  function Find(s: string, sub: string): Option<nat> {
    FindFrom(s, sub, 0)
  }

  /** Python's `sub in s`. */
  predicate Contains(s: string, sub: string) {
    Find(s, sub).Some?
  }

  /** `sub in s` holds exactly when `sub` occurs somewhere in `s`. */
  lemma ContainsIff(s: string, sub: string)
    ensures Contains(s, sub) <==> exists i: nat :: OccursAt(s, sub, i)
  {
    if Contains(s, sub) {
      assert OccursAt(s, sub, Find(s, sub).value);
    }
  }

  /** For a one-character needle, `sub in s` is sequence membership. */
  lemma ContainsChar(s: string, c: char)
    ensures Contains(s, [c]) <==> c in s
  {
    if c in s {
      var k :| 0 <= k < |s| && s[k] == c;
      assert s[k..k + 1] == [c];
      assert OccursAt(s, [c], k);
    }
    if Contains(s, [c]) {
      var i := Find(s, [c]).value;
      assert s[i] == s[i..i + 1][0];
    }
  }

  /** The first occurrence of `c` is found at the first index that holds `c`. */
  lemma FindFirstChar(s: string, c: char, k: nat)
    requires k < |s| && s[k] == c
    requires forall j :: 0 <= j < k ==> s[j] != c
    ensures Find(s, [c]) == Some(k)
  {
    assert s[k..k + 1] == [c];
    assert OccursAt(s, [c], k);
    var i := Find(s, [c]).value;
    assert s[i] == s[i..i + 1][0];
  }

  /** An occurrence inside a prefix is an occurrence in the whole string. */
  lemma OccursInPrefix(s: string, sub: string, i: nat, j: nat)
    requires i <= |s|
    ensures OccursAt(s[..i], sub, j) ==> OccursAt(s, sub, j) && j + |sub| <= i
  {
    if OccursAt(s[..i], sub, j) {
      assert s[..i][j..j + |sub|] == s[j..j + |sub|];
    }
  }

  /** A prefix that ends before the first occurrence of `sub` does not contain `sub`. */
  lemma NotContainsBeforeFirst(s: string, sub: string, i: nat)
    requires sub != "" && i <= |s|
    requires forall j :: 0 <= j < i ==> !OccursAt(s, sub, j)
    ensures !Contains(s[..i], sub)
  {
    forall j: nat
      ensures !OccursAt(s[..i], sub, j)
    {
      OccursInPrefix(s, sub, i, j);
    }
  }

  /** Python's `s.index(c)` for one character: the first index holding `c`. */
  function IndexOfChar(s: string, c: char): (i: nat)
    requires c in s
    ensures i < |s| && s[i] == c && c !in s[..i]
  {
    if s[0] == c then 0 else 1 + IndexOfChar(s[1..], c)
  }

  /** Python's `any(w in s for w in words)`. */
  predicate ContainsAny(s: string, words: seq<string>) {
    exists i :: 0 <= i < |words| && Contains(s, words[i])
  }

  // ---------------------------------------------------------------------------
  // `s.split(sep)` and `sep.join(parts)`
  // ---------------------------------------------------------------------------

  /**
   * Python's `s.split(sep)` for a non-empty separator: the pieces between
   * successive left-to-right, non-overlapping occurrences of `sep`.
   */
  function Split(s: string, sep: string): (parts: seq<string>)
    requires sep != ""
    decreases |s|
    ensures |parts| >= 1
    ensures Contains(s, sep) <==> |parts| >= 2
    ensures !Contains(s, sep) ==> parts == [s]
    ensures forall i :: 0 <= i < |parts| ==> !Contains(parts[i], sep)
  {
    match Find(s, sep)
    case None => [s]
    case Some(i) =>
      NotContainsBeforeFirst(s, sep, i);
      [s[..i]] + Split(s[i + |sep|..], sep)
  }

  /** Python's `sep.join(parts)`. */
  function Join(parts: seq<string>, sep: string): string {
    if |parts| == 0 then ""
    else if |parts| == 1 then parts[0]
    else parts[0] + sep + Join(parts[1..], sep)
  }

  /** Joining the pieces of a split with the same separator gives the string back. */
  lemma {:induction false} JoinSplit(s: string, sep: string)
    requires sep != ""
    decreases |s|
    ensures Join(Split(s, sep), sep) == s
  {
    var r := Find(s, sep);
    if r.Some? {
      var i := r.value;
      var rest := s[i + |sep|..];
      JoinSplit(rest, sep);
      var tail := Split(rest, sep);
      var parts := [s[..i]] + tail;
      assert Split(s, sep) == parts;
      assert parts[1..] == tail;
      assert Join(parts, sep) == s[..i] + sep + rest;
      assert s[i..i + |sep|] == sep;
      assert s == s[..i] + sep + rest;
    }
  }

  /**
   * Splitting a join on a one-character separator that occurs in none of
   * the pieces gives the pieces back.
   */
  lemma {:induction false} SplitJoin(parts: seq<string>, c: char)
    requires |parts| >= 1
    requires forall i :: 0 <= i < |parts| ==> c !in parts[i]
    ensures Split(Join(parts, [c]), [c]) == parts
  {
    if |parts| == 1 {
      ContainsChar(parts[0], c);
    } else {
      var head := parts[0];
      var rest := Join(parts[1..], [c]);
      var s := head + [c] + rest;
      assert s == Join(parts, [c]);
      assert s[|head|] == c;
      assert forall j :: 0 <= j < |head| ==> s[j] == head[j];
      FindFirstChar(s, c, |head|);
      assert s[..|head|] == head;
      assert s[|head| + 1..] == rest;
      SplitJoin(parts[1..], c);
      assert Split(s, [c]) == [head] + Split(rest, [c]);
    }
  }

  lemma AppendAssoc<T>(a: seq<T>, b: seq<T>, c: seq<T>)
    ensures a + (b + c) == (a + b) + c
  {
  }

  /** Splitting on one character distributes over a join at one occurrence of it. */
  lemma {:induction false} SplitAppend(x: string, c: char, y: string)
    decreases |x|
    ensures Split(x + [c] + y, [c]) == Split(x, [c]) + Split(y, [c])
  {
    var sep := [c];
    ContainsChar(x, c);
    if c !in x {
      SplitAtFirst(x, sep, y);
    } else {
      var i := IndexOfChar(x, c);
      var x1, x2 := x[..i], x[i + 1..];
      var rest := x2 + sep + y;
      assert x == x1 + sep + x2 by {
        assert x == x[..i] + [x[i]] + x[i + 1..];
      }
      calc {
        Split(x + sep + y, sep);
        { assert x + sep + y == x1 + sep + rest; }
        Split(x1 + sep + rest, sep);
        { SplitAtFirst(x1, sep, rest); }
        [x1] + Split(rest, sep);
        { SplitAppend(x2, c, y); }
        [x1] + (Split(x2, sep) + Split(y, sep));
        { AppendAssoc([x1], Split(x2, sep), Split(y, sep)); }
        ([x1] + Split(x2, sep)) + Split(y, sep);
        { SplitAtFirst(x1, sep, x2); }
        Split(x, sep) + Split(y, sep);
      }
    }
  }

  /** A string without a line break holds no `"\n"`. */
  lemma NoLineBreak(s: string)
    requires '\n' !in s
    ensures !Contains(s, "\n")
  {
    ContainsChar(s, '\n');
  }

  /** Two separators in a row leave an empty piece between the two sides. */
  lemma SplitAppendTwice(x: string, c: char, y: string)
    ensures Split(x + [c, c] + y, [c]) == Split(x, [c]) + [""] + Split(y, [c])
  {
    assert x + [c, c] + y == x + [c] + ([] + [c] + y);
    SplitAppend(x, c, [] + [c] + y);
    SplitAppend([], c, y);
    ContainsChar([], c);
  }

  /** Taking the first piece of a split twice is the same as taking it once. */
  lemma FirstPieceStable(s: string, sep: string)
    requires sep != ""
    ensures Split(Split(s, sep)[0], sep)[0] == Split(s, sep)[0]
  {
  }

  /** `sub` is found in any string that has it in the middle. */
  lemma ContainsMiddle(a: string, sub: string, b: string)
    ensures Contains(a + sub + b, sub)
  {
    var s := a + sub + b;
    assert s[|a|..|a| + |sub|] == sub;
    assert OccursAt(s, sub, |a|);
  }

  /** Whatever a string contains, any extension of it on the right contains too. */
  lemma ContainsLeft(x: string, y: string, sub: string)
    ensures Contains(x, sub) ==> Contains(x + y, sub)
  {
    if Contains(x, sub) {
      var i := Find(x, sub).value;
      assert (x + y)[i..i + |sub|] == x[i..i + |sub|];
      assert OccursAt(x + y, sub, i);
    }
  }

  /** Whatever a string contains, any extension of it on the left contains too. */
  lemma ContainsRight(x: string, y: string, sub: string)
    ensures Contains(y, sub) ==> Contains(x + y, sub)
  {
    if Contains(y, sub) {
      var i := Find(y, sub).value;
      assert (x + y)[|x| + i..|x| + i + |sub|] == y[i..i + |sub|];
      assert OccursAt(x + y, sub, |x| + i);
    }
  }

  /** No occurrence of `sep` starts inside a prefix that lacks `sep`'s first character. */
  lemma NoOccurrenceIn(a: string, t: string, sep: string, j: nat)
    requires sep != "" && sep[0] !in a
    ensures j < |a| ==> !OccursAt(a + t, sep, j)
  {
    if j < |a| && j + |sep| <= |a + t| {
      assert (a + t)[j..j + |sep|][0] == (a + t)[j] == a[j];
    }
  }

  /** Past the prefix `a`, the occurrences in `a + t` are those in `t`, shifted. */
  lemma OccursShift(a: string, t: string, sep: string, i: nat)
    requires |a| <= i
    ensures OccursAt(a + t, sep, i) <==> OccursAt(t, sep, i - |a|)
  {
    if i + |sep| <= |a + t| {
      assert (a + t)[i..i + |sep|] == t[i - |a|..i - |a| + |sep|];
    }
  }

  /**
   * Behind a prefix that lacks `sep`'s first character, the first
   * occurrence of `sep` is the first occurrence in the rest, shifted.
   */
  lemma FindShift(a: string, t: string, sep: string)
    requires sep != "" && sep[0] !in a
    ensures Find(t, sep).None? ==> Find(a + t, sep).None?
    ensures Find(t, sep).Some? ==> Find(a + t, sep) == Some(|a| + Find(t, sep).value)
  {
    var s := a + t;
    var r := Find(t, sep);
    var q := Find(s, sep);
    var m := if q.Some? then q.value else 0;
    NoOccurrenceIn(a, t, sep, m);
    if |a| <= m {
      OccursShift(a, t, sep, m);
    }
    if r.Some? {
      OccursShift(a, t, sep, |a| + r.value);
    }
  }

  /** The first piece of a split grows by any prefix that lacks `sep`'s first character. */
  lemma FirstPieceShift(a: string, t: string, sep: string)
    requires sep != "" && sep[0] !in a
    ensures Split(a + t, sep)[0] == a + Split(t, sep)[0]
  {
    FindShift(a, t, sep);
    var r := Find(t, sep);
    if r.Some? {
      assert (a + t)[..|a| + r.value] == a + t[..r.value];
    }
  }

  /** Splitting at a first occurrence of `sep` that follows `a`. */
  lemma SplitAtFirst(a: string, sep: string, b: string)
    requires sep != "" && sep[0] !in a
    ensures Split(a + sep + b, sep) == [a] + Split(b, sep)
  {
    var s := a + sep + b;
    assert s == a + (sep + b);
    assert (sep + b)[0..|sep|] == sep;
    assert Find(sep + b, sep) == Some(0);
    FindShift(a, sep + b, sep);
    assert s[..|a|] == a;
    assert s[|a| + |sep|..] == b;
  }

  // ---------------------------------------------------------------------------
  // `s.strip()`, `s.strip(chars)`, `s.replace(c, '')`
  // ---------------------------------------------------------------------------

  /** Python's `s.lstrip(chars)`: drops the longest prefix made of characters in `drop`. */
  function TrimStart(s: string, drop: set<char>): (r: string)
    decreases |s|
    ensures |r| <= |s| && r == s[|s| - |r|..]
    ensures forall j :: 0 <= j < |s| - |r| ==> s[j] in drop
    ensures |r| > 0 ==> r[0] !in drop
  {
    if |s| > 0 && s[0] in drop then TrimStart(s[1..], drop) else s
  }

  /** Python's `s.rstrip(chars)`: drops the longest suffix made of characters in `drop`. */
  function TrimEnd(s: string, drop: set<char>): (r: string)
    decreases |s|
    ensures |r| <= |s| && r == s[..|r|]
    ensures forall j :: |r| <= j < |s| ==> s[j] in drop
    ensures |r| > 0 ==> r[|r| - 1] !in drop
  {
    if |s| > 0 && s[|s| - 1] in drop then TrimEnd(s[..|s| - 1], drop) else s
  }

  /** A string with no character of `drop` at either end. */
  predicate StrippedOf(s: string, drop: set<char>) {
    |s| > 0 ==> s[0] !in drop && s[|s| - 1] !in drop
  }

  /** `s` is a contiguous piece of `t`. */
  predicate IsSubstring(s: string, t: string) {
    exists a: nat, b: nat :: a <= b <= |t| && s == t[a..b]
  }

  /**
   * `r` is `s` with a prefix of length `a` and a suffix removed, and every
   * removed character is in `drop`.
   */
  predicate TrimmedAt(r: string, s: string, drop: set<char>, a: nat) {
    && a + |r| <= |s|
    && r == s[a..a + |r|]
    && (forall j :: 0 <= j < a ==> s[j] in drop)
    && (forall j :: a + |r| <= j < |s| ==> s[j] in drop)
  }

  /** Python's `s.strip(chars)`: both ends. */
  function StripChars(s: string, drop: set<char>): (r: string)
    ensures StrippedOf(r, drop)
    ensures IsSubstring(r, s)
    ensures StrippedOf(s, drop) ==> r == s
  {
    var t := TrimStart(s, drop);
    var r := TrimEnd(t, drop);
    assert r == s[|s| - |t|..|s| - |t| + |r|];
    r
  }

  /**
   * `s.strip(chars)` removes only characters of `drop`: the result is `s`
   * less a prefix and a suffix made of them. With `StrippedOf`, this says
   * the removed prefix and suffix are the longest such.
   */
  lemma StripCharsRemovesOnlyDropped(s: string, drop: set<char>)
    ensures exists a: nat :: TrimmedAt(StripChars(s, drop), s, drop, a)
  {
    var t := TrimStart(s, drop);
    var r := TrimEnd(t, drop);
    var a := |s| - |t|;
    assert r == StripChars(s, drop);
    assert t == s[a..] && r == t[..|r|];
    assert r == s[a..a + |r|];
    forall j | a + |r| <= j < |s|
      ensures s[j] in drop
    {
      assert s[j] == t[j - a];
    }
    assert TrimmedAt(r, s, drop, a);
  }

  /** Python's `s.strip()`. */
  function Strip(s: string): (r: string)
    ensures StrippedOf(r, Whitespace)
    ensures IsSubstring(r, s)
  {
    StripChars(s, Whitespace)
  }

  /** `s.strip()` removes only whitespace, from the two ends. */
  lemma StripRemovesOnlyWhitespace(s: string)
    ensures exists a: nat :: TrimmedAt(Strip(s), s, Whitespace, a)
  {
    StripCharsRemovesOnlyDropped(s, Whitespace);
    var a: nat :| TrimmedAt(StripChars(s, Whitespace), s, Whitespace, a);
    assert TrimmedAt(Strip(s), s, Whitespace, a);
  }

  /** Whatever a piece of `t` holds, `t` holds. */
  lemma SubstringChars(s: string, t: string, c: char)
    requires IsSubstring(s, t)
    ensures c in s ==> c in t
  {
    var a: nat, b: nat :| a <= b <= |t| && s == t[a..b];
    if c in s {
      var k :| 0 <= k < |s| && s[k] == c;
      assert t[a + k] == c;
    }
  }

  /** Stripping twice is stripping once. */
  lemma StripIdempotent(s: string)
    ensures Strip(Strip(s)) == Strip(s)
  {
  }

  /** Python's `s.replace(c, '')`: every occurrence of `c` removed, the rest kept in order. */
  function RemoveChar(s: string, c: char): (r: string)
    decreases |s|
    ensures c !in r
    ensures forall x :: x in r <==> x in s && x != c
    ensures c !in s ==> r == s
    ensures multiset(r) == multiset(s)[c := 0]
  {
    if |s| == 0 then ""
    else
      assert s == [s[0]] + s[1..];
      (if s[0] == c then "" else [s[0]]) + RemoveChar(s[1..], c)
  }

  /** Removing a character distributes over concatenation, so the kept characters stay in order. */
  lemma {:induction false} RemoveCharAppend(x: string, y: string, c: char)
    decreases |x|
    ensures RemoveChar(x + y, c) == RemoveChar(x, c) + RemoveChar(y, c)
  {
    if |x| > 0 {
      assert (x + y)[1..] == x[1..] + y;
      assert (x + y)[0] == x[0];
      RemoveCharAppend(x[1..], y, c);
    } else {
      assert x + y == y;
    }
  }

  // ---------------------------------------------------------------------------
  // `c * n`, `s[:n]`, `f"{n}"`
  // ---------------------------------------------------------------------------

  /** Python's `c * n` for a one-character string `c`. */
  function Repeat(c: char, n: nat): (r: string)
    ensures |r| == n && forall i :: 0 <= i < n ==> r[i] == c
  {
    seq(n, _ => c)
  }

  /** Python's `s[:n]`: the first `n` characters, or all of `s` when it is shorter. */
  function Take(s: string, n: nat): (r: string)
    ensures |r| == (if |s| <= n then |s| else n) && r <= s
    ensures |s| <= n ==> r == s
  {
    if |s| <= n then s else s[..n]
  }

  /** The decimal digit character of `d`. */
  function DigitChar(d: nat): (c: char)
    requires d < 10
  {
    (('0' as int) + d) as char
  }

  predicate IsDigits(s: string) {
    forall i :: 0 <= i < |s| ==> '0' <= s[i] <= '9'
  }

  /** Python's `f"{n}"` for a non-negative integer: its decimal digits, without leading zeros. */
  function NatToString(n: nat): (r: string)
    decreases n
    ensures |r| >= 1 && IsDigits(r)
    ensures |r| > 1 ==> r[0] != '0'
  {
    if n < 10 then [DigitChar(n)] else NatToString(n / 10) + [DigitChar(n % 10)]
  }

  /** The number a string of decimal digits denotes (Python's `int(s)`). */
  function DecimalValue(s: string): nat
    requires IsDigits(s)
  {
    if |s| == 0 then 0
    else DecimalValue(s[..|s| - 1]) * 10 + ((s[|s| - 1] as int) - ('0' as int))
  }

  /** `int(f"{n}") == n`. */
  lemma {:induction false} DecimalRoundTrip(n: nat)
    decreases n
    ensures DecimalValue(NatToString(n)) == n
  {
    if n >= 10 {
      var r := NatToString(n);
      DecimalRoundTrip(n / 10);
      assert r[..|r| - 1] == NatToString(n / 10);
    }
  }

  /** Different numbers print differently. */
  lemma NatToStringInjective(m: nat, n: nat)
    ensures NatToString(m) == NatToString(n) ==> m == n
  {
    DecimalRoundTrip(m);
    DecimalRoundTrip(n);
  }
}
