/**
 * The handful of Python `str` operations the model needs, with Python's
 * semantics: `strip`, `lower` (ASCII letters only), `startswith`, `in`,
 * `index`, the prefix slice `s[:k]` with its negative bounds, `join`,
 * `split()` on whitespace runs, `split(sep)`, and `str(int)`.
 */
module Strings {
  import opened Base

  /** The characters for which Python's `str.isspace()` holds. */
  predicate IsSpace(c: char) {
    || c == ' '
    || ('\t' <= c <= '\r')
    || ('\U{1C}' <= c <= '\U{1F}')
    || c == '\U{85}' || c == '\U{A0}' || c == '\U{1680}'
    || ('\U{2000}' <= c <= '\U{200A}')
    || c == '\U{2028}' || c == '\U{2029}' || c == '\U{202F}' || c == '\U{205F}' || c == '\U{3000}'
  }

  predicate IsDigit(c: char) { '0' <= c <= '9' }

  predicate IsAsciiAlnum(c: char) { IsDigit(c) || 'a' <= c <= 'z' || 'A' <= c <= 'Z' }

  predicate AllDigits(s: string) { forall i :: 0 <= i < |s| ==> IsDigit(s[i]) }

  /** `s.lstrip()`: the suffix left after dropping leading whitespace. */
  function LStrip(s: string): (r: string)
    ensures |r| <= |s| && r == s[|s| - |r|..]
    ensures r == [] || !IsSpace(r[0])
    ensures forall i :: 0 <= i < |s| - |r| ==> IsSpace(s[i])
    decreases |s|
  {
    if |s| > 0 && IsSpace(s[0]) then LStrip(s[1..]) else s
  }

  /** `s.rstrip()`: the prefix left after dropping trailing whitespace. */
  function RStrip(s: string): (r: string)
    ensures |r| <= |s| && r == s[..|r|]
    ensures r == [] || !IsSpace(r[|r| - 1])
    ensures forall i :: |r| <= i < |s| ==> IsSpace(s[i])
    decreases |s|
  {
    if |s| > 0 && IsSpace(s[|s| - 1]) then RStrip(s[..|s| - 1]) else s
  }

  /** `s.strip()`. */
  function Strip(s: string): string {
    RStrip(LStrip(s))
  }

  function LowerChar(c: char): char {
    if 'A' <= c <= 'Z' then (c as int + 32) as char else c
  }

  /** `s.lower()` on ASCII letters; every other character is kept. */
  function Lower(s: string): (r: string)
    ensures |r| == |s|
  {
    seq(|s|, i requires 0 <= i < |s| => LowerChar(s[i]))
  }

  predicate StartsWith<T(==)>(s: seq<T>, p: seq<T>) {
    |p| <= |s| && s[..|p|] == p
  }

  /** `s.find(p, k)` for `0 <= k`: the first position at or after `k` where `p` occurs. */
  function FindFrom(s: string, p: string, k: nat): (r: Option<nat>)
    ensures r.Some? ==> k <= r.value <= |s| && StartsWith(s[r.value..], p)
    ensures r.Some? ==> forall j :: k <= j < r.value ==> !StartsWith(s[j..], p)
    ensures r.None? ==> forall j :: k <= j <= |s| ==> !StartsWith(s[j..], p)
    decreases if k <= |s| then |s| - k + 1 else 0
  {
    if k > |s| then None
    else if StartsWith(s[k..], p) then Some(k)
    else FindFrom(s, p, k + 1)
  }

  /** Python's `p in s` on strings. */
  predicate Contains(s: string, p: string) {
    FindFrom(s, p, 0).Some?
  }

  lemma ContainsAt(s: string, p: string, j: nat)
    requires j <= |s| && StartsWith(s[j..], p)
    ensures Contains(s, p)
  {
  }

  lemma ContainsInSuffix(a: string, b: string, p: string)
    requires Contains(b, p)
    ensures Contains(a + b, p)
  {
    var j := FindFrom(b, p, 0).value;
    assert (a + b)[|a| + j..] == b[j..];
    ContainsAt(a + b, p, |a| + j);
  }

  lemma ContainsInPrefix(a: string, b: string, p: string)
    requires Contains(a, p)
    ensures Contains(a + b, p)
  {
    var j := FindFrom(a, p, 0).value;
    assert (a + b)[j..][..|p|] == a[j..][..|p|];
    ContainsAt(a + b, p, j);
  }

  /** Python's `s[:k]`: a negative `k` counts from the end. */
  function Take<T>(s: seq<T>, k: int): (r: seq<T>)
    ensures |r| <= |s| && r == s[..|r|]
    ensures 0 <= k ==> |r| == Min(k, |s|)
    ensures k < 0 ==> |r| == Max(0, |s| + k)
  {
    if k >= |s| then s
    else if k >= 0 then s[..k]
    else if |s| + k <= 0 then []
    else s[..|s| + k]
  }

  /** Python's `s[-k:]` for `k >= 1`: the last `k` elements, or all of them. */
  function TakeLast<T>(s: seq<T>, k: nat): (r: seq<T>)
    requires k >= 1
    ensures |r| == Min(k, |s|) && r == s[|s| - |r|..]
  {
    if k >= |s| then s else s[|s| - k..]
  }

  /** `sep.join(parts)`. */
  function Join(sep: string, parts: seq<string>): string
    decreases |parts|
  {
    if |parts| == 0 then ""
    else if |parts| == 1 then parts[0]
    else parts[0] + sep + Join(sep, parts[1..])
  }

  function SumLengths(parts: seq<string>): nat
    decreases |parts|
  {
    if |parts| == 0 then 0 else |parts[0]| + SumLengths(parts[1..])
  }

  /** Appending one part to a non-empty list adds the separator and the part. */
  lemma {:induction false} JoinSnoc(sep: string, parts: seq<string>, q: string)
    requires |parts| > 0
    ensures Join(sep, parts + [q]) == Join(sep, parts) + sep + q
    decreases |parts|
  {
    if |parts| == 1 {
      assert (parts + [q])[1..] == [q];
    } else {
      assert (parts + [q])[1..] == parts[1..] + [q];
      JoinSnoc(sep, parts[1..], q);
    }
  }

  /** The length of a join: all parts plus one separator between neighbours. */
  lemma {:induction false} JoinLength(sep: string, parts: seq<string>)
    requires |parts| > 0
    ensures |Join(sep, parts)| == SumLengths(parts) + |sep| * (|parts| - 1)
    decreases |parts|
  {
    if |parts| > 1 {
      JoinLength(sep, parts[1..]);
    }
  }

  /** Every part occurs in the join. */
  lemma {:induction false} JoinContainsPart(sep: string, parts: seq<string>, i: nat)
    requires i < |parts|
    ensures Contains(Join(sep, parts), parts[i])
    decreases |parts|
  {
    if i == 0 {
      if |parts| == 1 {
        ContainsAt(parts[0], parts[0], 0);
      } else {
        ContainsAt(parts[0], parts[0], 0);
        ContainsInPrefix(parts[0], sep + Join(sep, parts[1..]), parts[0]);
        assert parts[0] + (sep + Join(sep, parts[1..])) == Join(sep, parts);
      }
    } else {
      JoinContainsPart(sep, parts[1..], i - 1);
      ContainsInSuffix(parts[0] + sep, Join(sep, parts[1..]), parts[i]);
      assert (parts[0] + sep) + Join(sep, parts[1..]) == Join(sep, parts);
    }
  }

  /** The first index of `c` in `s`. */
  function IndexOfChar(s: string, c: char): (i: nat)
    requires c in s
    ensures i < |s| && s[i] == c && c !in s[..i]
    decreases |s|
  {
    if s[0] == c then 0 else 1 + IndexOfChar(s[1..], c)
  }

  /** `s.split(c)` for a one-character separator. */
  function SplitOn(s: string, c: char): (r: seq<string>)
    ensures |r| >= 1
    ensures forall i :: 0 <= i < |r| ==> c !in r[i]
    decreases |s|
  {
    if c !in s then [s]
    else
      var i := IndexOfChar(s, c);
      [s[..i]] + SplitOn(s[i + 1..], c)
  }

  /** Splitting on a character and joining with it again gives the string back. */
  lemma {:induction false} JoinSplitOn(s: string, c: char)
    ensures Join([c], SplitOn(s, c)) == s
    decreases |s|
  {
    if c in s {
      var i := IndexOfChar(s, c);
      var rest := SplitOn(s[i + 1..], c);
      JoinSplitOn(s[i + 1..], c);
      assert ([s[..i]] + rest)[1..] == rest;
      assert s == s[..i] + [c] + s[i + 1..];
    }
  }

  /** Joining lines that hold no separator and splitting again gives the lines back. */
  lemma {:induction false} SplitOnJoin(parts: seq<string>, c: char)
    requires |parts| >= 1
    requires forall i :: 0 <= i < |parts| ==> c !in parts[i]
    ensures SplitOn(Join([c], parts), c) == parts
    decreases |parts|
  {
    if |parts| > 1 {
      var rest := Join([c], parts[1..]);
      assert Join([c], parts) == parts[0] + [c] + rest;
      SplitOnCons(parts[0], c, rest);
      SplitOnJoin(parts[1..], c);
      assert [parts[0]] + parts[1..] == parts;
    }
  }

  /** Splitting a string whose first separator follows `x` gives `x` first. */
  lemma SplitOnCons(x: string, c: char, rest: string)
    requires c !in x
    ensures SplitOn(x + [c] + rest, c) == [x] + SplitOn(rest, c)
  {
    var s := x + [c] + rest;
    assert s[|x|] == c;
    IndexOfCharAt(s, c, |x|);
    assert s[..|x|] == x;
    assert s[|x| + 1..] == rest;
  }

  /** The first occurrence of `c` is at `i` when `c` is at `i` and nowhere before it. */
  lemma IndexOfCharAt(s: string, c: char, i: nat)
    requires i < |s| && s[i] == c && c !in s[..i]
    ensures IndexOfChar(s, c) == i
  {
  }

  /** Stripping leading whitespace is unaffected by what follows the first non-space character. */
  lemma {:induction false} LStripAppend(s: string, t: string)
    requires LStrip(s) != []
    ensures LStrip(s + t) == LStrip(s) + t
    decreases |s|
  {
    if |s| > 0 && IsSpace(s[0]) {
      assert (s + t)[1..] == s[1..] + t;
      LStripAppend(s[1..], t);
    }
  }

  /** Whitespace around a string does not change what `strip` gives. */
  lemma StripPadded(s: string, c: char)
    requires IsSpace(c)
    ensures Strip([c] + s + [c]) == Strip(s)
  {
    var padded := [c] + s + [c];
    assert padded[1..] == s + [c];
    if LStrip(s) == [] {
      LStripAllSpace(s + [c]);
    } else {
      LStripAppend(s, [c]);
      var l := LStrip(s);
      assert (l + [c])[..|l + [c]| - 1] == l;
    }
  }

  /** A string with nothing but whitespace strips to nothing, and so does it with more whitespace after it. */
  lemma {:induction false} LStripAllSpace(s: string)
    requires |s| > 0 && IsSpace(s[|s| - 1])
    requires LStrip(s[..|s| - 1]) == []
    ensures LStrip(s) == []
    decreases |s|
  {
    if |s| > 1 {
      assert s[1..][..|s| - 2] == s[..|s| - 1][1..];
      LStripAllSpace(s[1..]);
    }
  }

  /** The length of the leading run of non-whitespace characters. */
  function NonSpaceRun(t: string): (n: nat)
    ensures n <= |t|
    ensures forall k :: 0 <= k < n ==> !IsSpace(t[k])
    ensures n == |t| || IsSpace(t[n])
    decreases |t|
  {
    if |t| == 0 || IsSpace(t[0]) then 0 else 1 + NonSpaceRun(t[1..])
  }

  /** A non-empty run of non-whitespace characters. */
  predicate IsWord(w: string) {
    |w| > 0 && forall k :: 0 <= k < |w| ==> !IsSpace(w[k])
  }

  /** `s.split()`: the maximal runs of non-whitespace characters, in order. */
  function Words(s: string): seq<string>
    decreases |s|
  {
    var t := LStrip(s);
    if t == [] then []
    else
      var n := FirstWordLength(t);
      [t[..n]] + Words(t[n..])
  }

  /** Every piece `split` gives is a non-empty run of non-whitespace. */
  lemma {:induction false} WordsAreWords(s: string)
    ensures forall i :: 0 <= i < |Words(s)| ==> IsWord(Words(s)[i])
    decreases |s|
  {
    var t := LStrip(s);
    if t != [] {
      var n := FirstWordLength(t);
      WordsAreWords(t[n..]);
      WordsSplit(s, t, n);
      var r, rest := Words(s), Words(t[n..]);
      forall i | 0 <= i < |r|
        ensures IsWord(r[i])
      {
        if i > 0 {
          ConsIndex(r, t[..n], rest, i);
        }
      }
    }
  }

  /** Every character of `w` occurs in `s`. */
  predicate CharsIn(w: string, s: string) {
    forall k :: 0 <= k < |w| ==> w[k] in s
  }

  /** Every character of every word occurs in the text. */
  lemma {:induction false} WordsChars(s: string)
    ensures forall i :: 0 <= i < |Words(s)| ==> CharsIn(Words(s)[i], s)
    decreases |s|
  {
    var t := LStrip(s);
    if t != [] {
      var n := FirstWordLength(t);
      var rest := t[n..];
      WordsChars(rest);
      WordsSplit(s, t, n);
      var r := Words(s);
      forall i | 0 <= i < |r|
        ensures CharsIn(r[i], s)
      {
        if i == 0 {
          PrefixCharsIn(s, t, n);
        } else {
          var w := Words(rest)[i - 1];
          ConsIndex(r, t[..n], Words(rest), i);
          assert CharsIn(w, rest);
          SuffixCharsIn(s, t, n, w);
        }
      }
    }
  }

  /** Characters found in a suffix of a suffix are found in the whole. */
  lemma SuffixCharsIn(s: string, t: string, n: nat, w: string)
    requires |t| <= |s| && t == s[|s| - |t|..] && n <= |t| && CharsIn(w, t[n..])
    ensures CharsIn(w, s)
  {
    forall k | 0 <= k < |w|
      ensures w[k] in s
    {
      var j :| 0 <= j < |t[n..]| && t[n..][j] == w[k];
      assert s[|s| - |t| + n + j] == w[k];
    }
  }

  /** The characters of a prefix of a suffix are found in the whole. */
  lemma PrefixCharsIn(s: string, t: string, n: nat)
    requires |t| <= |s| && t == s[|s| - |t|..] && n <= |t|
    ensures CharsIn(t[..n], s)
  {
    forall k | 0 <= k < n
      ensures t[..n][k] in s
    {
      assert s[|s| - |t| + k] == t[k];
    }
  }

  /** The elements after the head of a list built by putting `x` in front of `ws`. */
  lemma ConsIndex<T>(r: seq<T>, x: T, ws: seq<T>, i: nat)
    requires r == [x] + ws && 0 < i < |r|
    ensures r[i] == ws[i - 1]
  {
  }

  /** The first step of `Words`: the first word, then the words of what follows it. */
  lemma WordsSplit(s: string, t: string, n: nat)
    requires t == LStrip(s) && t != [] && !IsSpace(t[0]) && n == FirstWordLength(t)
    ensures Words(s) == [t[..n]] + Words(t[n..])
  {
  }

  /** The length of the first word of a string that starts with non-whitespace. */
  function FirstWordLength(t: string): (n: nat)
    requires t != [] && !IsSpace(t[0])
    ensures 0 < n <= |t| && IsWord(t[..n])
  {
    NonSpaceRun(t)
  }

  function DigitChar(d: nat): (c: char)
    requires d < 10
    ensures IsDigit(c)
  {
    ('0' as int + d) as char
  }

  function DigitValue(c: char): (d: nat)
    requires IsDigit(c)
    ensures d < 10 && DigitChar(d) == c
  {
    c as int - '0' as int
  }

  /** `str(n)` for a natural number. */
  function NatToString(n: nat): (r: string)
    ensures |r| >= 1 && AllDigits(r)
    decreases n
  {
    if n < 10 then [DigitChar(n)] else NatToString(n / 10) + [DigitChar(n % 10)]
  }

  /** `str(n)`. */
  function IntToString(n: int): string {
    if n < 0 then "-" + NatToString(-n) else NatToString(n)
  }

  /** `int(s)` for a string of decimal digits. */
  function DigitsValue(s: string): nat
    requires AllDigits(s)
    decreases |s|
  {
    if |s| == 0 then 0 else DigitsValue(s[..|s| - 1]) * 10 + DigitValue(s[|s| - 1])
  }

  /** Printing a number and reading it back gives the number. */
  lemma {:induction false} NatToStringValue(n: nat)
    ensures DigitsValue(NatToString(n)) == n
    decreases n
  {
    var s := NatToString(n);
    if n >= 10 {
      assert s[..|s| - 1] == NatToString(n / 10);
      NatToStringValue(n / 10);
    }
  }

  /** The longest prefix of `s` made of digits. */
  function LeadingDigits(s: string): (r: string)
    ensures StartsWith(s, r) && AllDigits(r)
    ensures |r| == |s| || !IsDigit(s[|r|])
    decreases |s|
  {
    if |s| > 0 && IsDigit(s[0]) then [s[0]] + LeadingDigits(s[1..]) else []
  }
}
