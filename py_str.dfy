/** The Python `str` operations the USPS adapter uses (slicing, `startswith`,
    `in`, `isalpha`, `isdigit` and `join`), and three more (`find`,
    `endswith`, `split`) that only the round-trip lemmas use to read values
    back out. */
module PyStr {

  /** One ASCII letter; `str.isalpha` asks this of every character. */
  predicate IsLetter(c: char) {
    'a' <= c <= 'z' || 'A' <= c <= 'Z'
  }

  /** One ASCII digit; `str.isdigit` asks this of every character. */
  predicate IsDigitChar(c: char) {
    '0' <= c <= '9'
  }

  /** Every character of `s` satisfies `p`, checked left to right. */
  predicate All(s: string, p: char -> bool) {
    s == [] || (p(s[0]) && All(s[1..], p))
  }

  lemma {:induction false} AllIff(s: string, p: char -> bool)
    ensures All(s, p) <==> forall i :: 0 <= i < |s| ==> p(s[i])
  {
    if s != [] {
      AllIff(s[1..], p);
      assert forall i :: 1 <= i < |s| ==> s[i] == s[1..][i - 1];
    }
  }

  /** `s.isalpha()`: non-empty and made of letters only. */
  predicate IsAlpha(s: string) {
    |s| > 0 && All(s, IsLetter)
  }

  /** `s.isdigit()`: non-empty and made of digits only. */
  predicate IsDigit(s: string) {
    |s| > 0 && All(s, IsDigitChar)
  }

  /** `s[lo:hi]` for non-negative bounds: both ends are clamped to `len(s)`,
      and an empty slice results when `lo >= hi`. */
  function Slice(s: string, lo: nat, hi: nat): (r: string)
    ensures |r| == (if lo < hi && lo < |s| then (if hi < |s| then hi else |s|) - lo else 0)
    ensures forall i :: 0 <= i < |r| ==> r[i] == s[lo + i]
  {
    if hi <= lo || |s| <= lo then ""
    else if hi < |s| then s[lo..hi]
    else s[lo..]
  }

  /** `s.startswith(prefix)` */
  predicate StartsWith(s: string, prefix: string) {
    |prefix| <= |s| && s[..|prefix|] == prefix
  }

  /** `sub in s`: `sub` occurs somewhere in `s`. */
  predicate Contains(s: string, sub: string)
    ensures Contains(s, sub) ==> |sub| <= |s|
  {
    StartsWith(s, sub) || (s != [] && Contains(s[1..], sub))
  }

  /** `s.endswith(suffix)` */
  predicate EndsWith(s: string, suffix: string) {
    |suffix| <= |s| && s[|s| - |suffix|..] == suffix
  }

  lemma ConcatStartsWith(a: string, b: string)
    ensures StartsWith(a + b, a) && (a + b)[|a|..] == b
  {
    assert (a + b)[..|a|] == a;
  }

  lemma ConcatEndsWith(a: string, b: string)
    ensures EndsWith(a + b, b) && (a + b)[..|a|] == a
  {
    assert (a + b)[|a|..] == b;
  }

  lemma ConcatFive(a: string, b: string, c: string, d: string, e: string)
    ensures a + b + c + d + e == a + (b + (c + (d + e)))
  {
  }

  lemma StartsWithRest(s: string, a: string)
    requires StartsWith(s, a)
    ensures s == a + s[|a|..]
  {
    assert s == s[..|a|] + s[|a|..];
  }

  lemma EndsWithRest(s: string, c: string)
    requires EndsWith(s, c)
    ensures s == s[..|s| - |c|] + c
  {
    assert s == s[..|s| - |c|] + s[|s| - |c|..];
  }

  /** `s.find(c)`: the first index holding `c`, or -1 when there is none. */
  function Find(s: string, c: char): (r: int)
    ensures -1 <= r < |s|
    ensures r == -1 ==> c !in s
    ensures 0 <= r ==> s[r] == c && c !in s[..r]
  {
    if s == [] then -1
    else if s[0] == c then 0
    else
      var r := Find(s[1..], c);
      if r == -1 then -1 else r + 1
  }

  /** The first `c` in `u + t` is the one that starts `t` when `u` has none. */
  lemma {:induction false} FindPastPrefix(u: string, t: string, c: char)
    requires c !in u && t != [] && t[0] == c
    ensures Find(u + t, c) == |u|
  {
    if u != [] {
      assert (u + t)[1..] == u[1..] + t;
      FindPastPrefix(u[1..], t, c);
    }
  }

  /** `sep.join(parts)` */
  function Join(sep: string, parts: seq<string>): (r: string) {
    if |parts| == 0 then ""
    else if |parts| == 1 then parts[0]
    else parts[0] + sep + Join(sep, parts[1..])
  }

  lemma JoinThree(sep: string, a: string, b: string, c: string)
    ensures Join(sep, [a, b, c]) == a + sep + b + sep + c
  {
    assert [a, b, c][1..] == [b, c];
    assert [b, c][1..] == [c];
    assert Join(sep, [c]) == c;
    assert Join(sep, [b, c]) == b + sep + c;
  }

  /** Number of occurrences of `c` in `s`. */
  function Count(s: string, c: char): (n: nat) {
    if s == [] then 0 else (if s[0] == c then 1 else 0) + Count(s[1..], c)
  }

  /** `s.split(sep)` for a one-character separator: the pieces between
      separators, one more piece than there are separators. */
  function Split(s: string, sep: char): (parts: seq<string>)
    ensures |parts| == Count(s, sep) + 1
  {
    if s == [] then [""]
    else
      var rest := Split(s[1..], sep);
      if s[0] == sep then [""] + rest
      else [[s[0]] + rest[0]] + rest[1..]
  }

  lemma {:induction false} SplitWithoutSeparator(p: string, sep: char)
    requires sep !in p
    ensures Split(p, sep) == [p]
  {
    if p != [] {
      SplitWithoutSeparator(p[1..], sep);
      assert [p[0]] + p[1..] == p;
    }
  }

  lemma {:induction false} SplitAtFirstSeparator(p: string, sep: char, t: string)
    requires sep !in p
    ensures Split(p + [sep] + t, sep) == [p] + Split(t, sep)
  {
    var s := p + [sep] + t;
    if p == [] {
      assert s[0] == sep && s[1..] == t;
    } else {
      assert s[0] == p[0] && s[1..] == p[1..] + [sep] + t;
      SplitAtFirstSeparator(p[1..], sep, t);
      assert [p[0]] + p[1..] == p;
    }
  }

  /** Splitting on the separator undoes joining with it, as long as no part
      contains the separator. */
  lemma {:induction false} SplitJoin(parts: seq<string>, sep: char)
    requires |parts| >= 1
    requires forall i :: 0 <= i < |parts| ==> sep !in parts[i]
    ensures Split(Join([sep], parts), sep) == parts
  {
    if |parts| == 1 {
      SplitWithoutSeparator(parts[0], sep);
    } else {
      SplitJoin(parts[1..], sep);
      SplitAtFirstSeparator(parts[0], sep, Join([sep], parts[1..]));
      assert [parts[0]] + parts[1..] == parts;
    }
  }
}
