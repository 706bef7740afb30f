/**
 * The string operations of Python that the core relies on, over `seq<char>`:
 * `str.lower`/`str.upper` (ASCII letters), the `in` substring test,
 * `str.strip` and `str.split()` with Python's whitespace set, `str.join`,
 * and `str(n)` for a non-negative integer.
 */
module Text {

  function LowerChar(c: char): char {
    if 'A' <= c <= 'Z' then (c as int + 32) as char else c
  }

  function UpperChar(c: char): char {
    if 'a' <= c <= 'z' then (c as int - 32) as char else c
  }

  /** `s.lower()`, for the ASCII letters. */
  function Lower(s: string): (r: string)
    ensures |r| == |s|
    ensures forall i :: 0 <= i < |s| ==> r[i] == LowerChar(s[i])
  {
    seq(|s|, i requires 0 <= i < |s| => LowerChar(s[i]))
  }

  /** `s.upper()`, for the ASCII letters. */
  function Upper(s: string): (r: string)
    ensures |r| == |s|
    ensures forall i :: 0 <= i < |s| ==> r[i] == UpperChar(s[i])
  {
    seq(|s|, i requires 0 <= i < |s| => UpperChar(s[i]))
  }

  /** Lower-casing twice is lower-casing once. */
  lemma LowerIdempotent(s: string)
    ensures Lower(Lower(s)) == Lower(s)
  {
    assert forall i :: 0 <= i < |s| ==> Lower(Lower(s))[i] == Lower(s)[i];
  }

  predicate StartsWith(s: string, prefix: string) {
    |prefix| <= |s| && s[..|prefix|] == prefix
  }

  /** Python's `sub in s`: `sub` occurs at some position of `s` (the empty string occurs everywhere). */
  predicate Contains(s: string, sub: string)
    decreases |s|
  {
    StartsWith(s, sub) || (|s| > 0 && Contains(s[1..], sub))
  }

  predicate OccursAt(s: string, sub: string, i: int) {
    0 <= i && i + |sub| <= |s| && s[i..i + |sub|] == sub
  }

  /** Whatever `Contains` accepts occurs at some index. */
  lemma {:induction false} ContainsHasOccurrence(s: string, sub: string)
    requires Contains(s, sub)
    ensures exists i :: OccursAt(s, sub, i)
    decreases |s|
  {
    if StartsWith(s, sub) {
      assert OccursAt(s, sub, 0);
    } else {
      ContainsHasOccurrence(s[1..], sub);
      var i :| OccursAt(s[1..], sub, i);
      assert s[1..][i..i + |sub|] == s[i + 1..i + 1 + |sub|];
      assert OccursAt(s, sub, i + 1);
    }
  }

  /** An occurrence at any index is found by `Contains`. */
  lemma {:induction false} OccurrenceIsContained(s: string, sub: string, i: int)
    requires OccursAt(s, sub, i)
    ensures Contains(s, sub)
    decreases i
  {
    if i > 0 {
      assert s[1..][i - 1..i - 1 + |sub|] == s[i..i + |sub|];
      OccurrenceIsContained(s[1..], sub, i - 1);
    }
  }

  /** What some suffix of `s` starts with, `s` contains. */
  lemma SuffixPrefixIsContained(s: string, i: nat, sub: string)
    requires i <= |s| && StartsWith(s[i..], sub)
    ensures Contains(s, sub)
  {
    assert s[i..i + |sub|] == s[i..][..|sub|];
    OccurrenceIsContained(s, sub, i);
  }

  /** A substring of either part is a substring of the concatenation. */
  lemma ContainsInConcat(a: string, b: string, sub: string)
    ensures Contains(a, sub) ==> Contains(a + b, sub)
    ensures Contains(b, sub) ==> Contains(a + b, sub)
  {
    if Contains(a, sub) {
      ContainsHasOccurrence(a, sub);
      var i :| OccursAt(a, sub, i);
      assert (a + b)[i..i + |sub|] == a[i..i + |sub|];
      OccurrenceIsContained(a + b, sub, i);
    }
    if Contains(b, sub) {
      ContainsHasOccurrence(b, sub);
      var i :| OccursAt(b, sub, i);
      assert (a + b)[|a| + i..|a| + i + |sub|] == b[i..i + |sub|];
      OccurrenceIsContained(a + b, sub, |a| + i);
    }
  }

  /** A string starts with each of its prefixes. */
  lemma StartsWithConcat(prefix: string, rest: string)
    ensures StartsWith(prefix + rest, prefix)
  {
    assert (prefix + rest)[..|prefix|] == prefix;
  }

  /** A concatenation of three parts starts with the first and contains the last. */
  lemma ThreePartShape(first: string, middle: string, last: string)
    ensures StartsWith(first + middle + last, first)
    ensures Contains(first + middle + last, last)
  {
    assert first + middle + last == first + (middle + last);
    StartsWithConcat(first, middle + last);
    ContainsSelf(last);
    ContainsInConcat(first + middle, last, last);
  }

  /** A substring of the middle part is a substring of the whole. */
  lemma ContainsMiddle(first: string, middle: string, last: string, sub: string)
    requires Contains(middle, sub)
    ensures Contains(first + middle + last, sub)
  {
    ContainsInConcat(first, middle, sub);
    ContainsInConcat(first + middle, last, sub);
  }

  /** Every string contains itself. */
  lemma ContainsSelf(s: string)
    ensures Contains(s, s)
  {
    assert StartsWith(s, s);
  }

  /** The characters for which Python's `str.isspace()` holds. */
  predicate IsSpace(c: char) {
    var n := c as int;
    (0x09 <= n <= 0x0D) || (0x1C <= n <= 0x20) || n == 0x85 || n == 0xA0 || n == 0x1680
    || (0x2000 <= n <= 0x200A) || n == 0x2028 || n == 0x2029 || n == 0x202F || n == 0x205F
    || n == 0x3000
  }

  function TrimLeft(s: string): (r: string)
    ensures |r| <= |s|
    ensures r == [] || !IsSpace(r[0])
  {
    if s != [] && IsSpace(s[0]) then TrimLeft(s[1..]) else s
  }

  function TrimRight(s: string): (r: string)
    ensures |r| <= |s|
    ensures r == [] || !IsSpace(r[|r| - 1])
  {
    if s != [] && IsSpace(s[|s| - 1]) then TrimRight(s[..|s| - 1]) else s
  }

  /** `TrimLeft` keeps a suffix and drops only whitespace before it. */
  lemma {:induction false} TrimLeftSpec(s: string)
    ensures TrimLeft(s) == s[|s| - |TrimLeft(s)|..]
    ensures forall i :: 0 <= i < |s| - |TrimLeft(s)| ==> IsSpace(s[i])
  {
    if s != [] && IsSpace(s[0]) {
      TrimLeftSpec(s[1..]);
      assert forall i :: 1 <= i < |s| - |TrimLeft(s)| ==> s[i] == s[1..][i - 1];
    }
  }

  /** `TrimRight` keeps a prefix and drops only whitespace after it. */
  lemma {:induction false} TrimRightSpec(s: string)
    ensures TrimRight(s) == s[..|TrimRight(s)|]
    ensures forall i :: |TrimRight(s)| <= i < |s| ==> IsSpace(s[i])
  {
    if s != [] && IsSpace(s[|s| - 1]) {
      TrimRightSpec(s[..|s| - 1]);
    }
  }

  /** `s.strip()`: drops leading and trailing whitespace. */
  function Strip(s: string): string {
    TrimRight(TrimLeft(s))
  }

  /** The result of `Strip` is a piece of its input that neither starts nor ends with whitespace. */
  lemma StripSpec(s: string)
    ensures var r := Strip(s); r == [] || (!IsSpace(r[0]) && !IsSpace(r[|r| - 1]))
    ensures Contains(s, Strip(s))
  {
    var t := TrimLeft(s);
    var r := TrimRight(t);
    TrimLeftSpec(s);
    TrimRightSpec(t);
    var i := |s| - |t|;
    assert s[i..i + |r|] == t[..|r|];
    OccurrenceIsContained(s, r, i);
    if r != [] {
      assert r[0] == t[0];
    }
  }

  function WordLength(s: string): (n: nat)
    ensures n <= |s|
    ensures forall i :: 0 <= i < n ==> !IsSpace(s[i])
    ensures n == |s| || IsSpace(s[n])
  {
    if s == [] || IsSpace(s[0]) then 0 else 1 + WordLength(s[1..])
  }

  /** `s.split()`: the maximal runs of non-whitespace characters, in order. */
  function Words(s: string): (ws: seq<string>)
    ensures forall k :: 0 <= k < |ws| ==> ws[k] != [] && forall i :: 0 <= i < |ws[k]| ==> !IsSpace(ws[k][i])
    decreases |s|
  {
    var t := TrimLeft(s);
    if t == [] then []
    else
      var n := WordLength(t);
      [t[..n]] + Words(t[n..])
  }

  /**
   * `split()` as a single left-to-right scan: a non-whitespace character extends the
   * word being read, whitespace closes it, and the end of the text closes the last one.
   */
  function SplitScan(s: string, done: seq<string>, current: string): seq<string>
    decreases |s|
  {
    if s == [] then (if current == [] then done else done + [current])
    else if IsSpace(s[0]) then SplitScan(s[1..], if current == [] then done else done + [current], [])
    else SplitScan(s[1..], done, current + [s[0]])
  }

  /** Leading whitespace does not change the words. */
  lemma WordsSkipSpace(s: string)
    requires s != [] && IsSpace(s[0])
    ensures Words(s) == Words(s[1..])
  {
    assert TrimLeft(s) == TrimLeft(s[1..]);
  }

  /** A run of non-whitespace followed by whitespace or the end is the first word. */
  lemma WordsAfterWord(word: string, s: string)
    requires word != [] && forall i :: 0 <= i < |word| ==> !IsSpace(word[i])
    requires s == [] || IsSpace(s[0])
    ensures Words(word + s) == [word] + Words(s)
  {
    var x := word + s;
    assert x[0] == word[0];
    assert TrimLeft(x) == x;
    var n := WordLength(x);
    assert forall i :: 0 <= i < |word| ==> x[i] == word[i];
    assert |word| == |x| || x[|word|] == s[0];
    assert n == |word|;
    assert x[..n] == word && x[n..] == s;
  }

  /** Whitespace closes the partial word, if any, and is then skipped. */
  lemma ClosingWord(done: seq<string>, current: string, s: string)
    requires forall i :: 0 <= i < |current| ==> !IsSpace(current[i])
    requires s != [] && IsSpace(s[0])
    ensures (if current == [] then done else done + [current]) + Words([] + s[1..]) == done + Words(current + s)
  {
    assert [] + s[1..] == s[1..];
    WordsSkipSpace(s);
    if current == [] {
      assert current + s == s;
    } else {
      WordsAfterWord(current, s);
    }
  }

  /** The end of the text closes the partial word, if any. */
  lemma LastWord(done: seq<string>, current: string)
    requires forall i :: 0 <= i < |current| ==> !IsSpace(current[i])
    ensures (if current == [] then done else done + [current]) == done + Words(current + [])
  {
    assert current + [] == current;
    if current == [] {
      assert Words(current) == [];
    } else {
      WordsAfterWord(current, []);
    }
  }

  /** The scan, started with some words done and a partial word, ends with the words of the rest. */
  lemma {:induction false} SplitScanWords(s: string, done: seq<string>, current: string)
    requires forall i :: 0 <= i < |current| ==> !IsSpace(current[i])
    ensures SplitScan(s, done, current) == done + Words(current + s)
    decreases |s|
  {
    if s == [] {
      LastWord(done, current);
    } else if IsSpace(s[0]) {
      SplitScanWords(s[1..], if current == [] then done else done + [current], []);
      ClosingWord(done, current, s);
    } else {
      SplitScanWords(s[1..], done, current + [s[0]]);
      assert current + [s[0]] + s[1..] == current + s;
    }
  }

  /** `Words` is the scan's result: the maximal whitespace-free runs, in order. */
  lemma WordsIsScan(s: string)
    ensures Words(s) == SplitScan(s, [], [])
  {
    SplitScanWords(s, [], []);
    assert [] + s == s;
  }

  /** The characters of `s` that are not whitespace, in order. */
  function NonSpace(s: string): (r: string)
    ensures |r| <= |s|
  {
    if s == [] then [] else (if IsSpace(s[0]) then [] else [s[0]]) + NonSpace(s[1..])
  }

  /** All the parts, one after the other. */
  function Concat(parts: seq<string>): string {
    if parts == [] then [] else parts[0] + Concat(parts[1..])
  }

  lemma {:induction false} NonSpaceConcat(a: string, b: string)
    ensures NonSpace(a + b) == NonSpace(a) + NonSpace(b)
  {
    if a != [] {
      assert (a + b)[0] == a[0] && (a + b)[1..] == a[1..] + b;
      NonSpaceConcat(a[1..], b);
    } else {
      assert a + b == b;
    }
  }

  lemma {:induction false} NonSpaceOfWord(word: string)
    requires forall i :: 0 <= i < |word| ==> !IsSpace(word[i])
    ensures NonSpace(word) == word
  {
    if word != [] {
      NonSpaceOfWord(word[1..]);
    }
  }

  lemma {:induction false} NonSpaceTrimLeft(s: string)
    ensures NonSpace(TrimLeft(s)) == NonSpace(s)
  {
    if s != [] && IsSpace(s[0]) {
      NonSpaceTrimLeft(s[1..]);
    }
  }

  /** Every non-whitespace character of `s` lands in a word, in order, and nothing else does. */
  lemma {:induction false} WordsCoverText(s: string)
    ensures Concat(Words(s)) == NonSpace(s)
    decreases |s|
  {
    var t := TrimLeft(s);
    NonSpaceTrimLeft(s);
    if t != [] {
      var n := WordLength(t);
      WordsCoverText(t[n..]);
      assert t == t[..n] + t[n..];
      NonSpaceConcat(t[..n], t[n..]);
      NonSpaceOfWord(t[..n]);
    }
  }

  /** `sep.join(parts)`. */
  function Join(sep: string, parts: seq<string>): string {
    if parts == [] then ""
    else if |parts| == 1 then parts[0]
    else parts[0] + sep + Join(sep, parts[1..])
  }

  /** `xs[:n]` for a non-negative `n`. */
  function Take<T>(xs: seq<T>, n: nat): (r: seq<T>)
    ensures |r| <= n && |r| <= |xs|
    ensures r == xs[..|r|]
    ensures |xs| <= n ==> r == xs
  {
    if |xs| <= n then xs else xs[..n]
  }

  function DigitChar(d: nat): char
    requires d < 10
  {
    ('0' as int + d) as char
  }

  /** `str(n)` for a non-negative integer. */
  function NatToString(n: nat): (s: string)
    ensures |s| > 0
  {
    if n < 10 then [DigitChar(n)] else NatToString(n / 10) + [DigitChar(n % 10)]
  }

  /** `str(n)` is made of decimal digits and has no leading zero. */
  lemma {:induction false} NatToStringDigits(n: nat)
    ensures forall i :: 0 <= i < |NatToString(n)| ==> '0' <= NatToString(n)[i] <= '9'
    ensures |NatToString(n)| > 1 ==> NatToString(n)[0] != '0'
    decreases n
  {
    if n >= 10 {
      NatToStringDigits(n / 10);
      assert NatToString(n)[..|NatToString(n)| - 1] == NatToString(n / 10);
    }
  }

  /** Reads back the number a string of decimal digits denotes. */
  function DecimalValue(s: string): int {
    if s == [] then 0 else DecimalValue(s[..|s| - 1]) * 10 + (s[|s| - 1] as int - '0' as int)
  }

  /** `str(n)` can be read back, so distinct numbers print differently. */
  lemma {:induction false} DecimalRoundTrip(n: nat)
    ensures DecimalValue(NatToString(n)) == n
    decreases n
  {
    if n >= 10 {
      DecimalRoundTrip(n / 10);
      var s := NatToString(n);
      assert s[..|s| - 1] == NatToString(n / 10);
    }
  }
}
