/** String helpers with the semantics of the Python `str` methods the
    application calls: `isspace`, `strip`, `split`, `startswith`,
    `endswith`, `in`, `lstrip(c)`, `replace(c, '')`, `lower` and `str(n)`. */
module Text {
  import opened Wrappers

  /** Python's `str.isspace` (and the `\s` class of `re` on `str` patterns):
      the characters whose bidirectional class is WS, B or S, or whose
      category is Zs. */
  predicate IsSpace(c: char) {
    || ('\U{0009}' <= c <= '\U{000D}')
    || ('\U{001C}' <= c <= '\U{0020}')
    || c == '\U{0085}' || c == '\U{00A0}' || c == '\U{1680}'
    || ('\U{2000}' <= c <= '\U{200A}')
    || c == '\U{2028}' || c == '\U{2029}' || c == '\U{202F}' || c == '\U{205F}'
    || c == '\U{3000}'
  }

  predicate IsDigit(c: char) {
    '0' <= c <= '9'
  }

  /** No leading and no trailing whitespace: what `strip` leaves. */
  predicate Stripped(s: string) {
    |s| == 0 || (!IsSpace(s[0]) && !IsSpace(s[|s| - 1]))
  }

  predicate AllSpace(s: string) {
    forall i :: 0 <= i < |s| ==> IsSpace(s[i])
  }

  /** `s[i..j]` is all whitespace. */
  predicate SpaceBetween(s: string, i: nat, j: nat)
    requires i <= j <= |s|
  {
    forall k :: i <= k < j ==> IsSpace(s[k])
  }

  /** The first index at or after `i` that does not hold whitespace. */
  function SkipSpace(s: string, i: nat): (j: nat)
    requires i <= |s|
    ensures i <= j <= |s| && SpaceBetween(s, i, j)
    ensures j < |s| ==> !IsSpace(s[j])
    decreases |s| - i
  {
    if i < |s| && IsSpace(s[i]) then SkipSpace(s, i + 1) else i
  }

  /** The end of `s[lo..j]` once its trailing whitespace is dropped. */
  function TrimEnd(s: string, lo: nat, j: nat): (k: nat)
    requires lo <= j <= |s|
    ensures lo <= k <= j && SpaceBetween(s, k, j)
    ensures k > lo ==> !IsSpace(s[k - 1])
    decreases j
  {
    if j > lo && IsSpace(s[j - 1]) then TrimEnd(s, lo, j - 1) else j
  }

  /** `s.strip()`: whitespace dropped at both ends. */
  function Strip(s: string): (r: string)
    ensures Stripped(r) && |r| <= |s|
  {
    var a := SkipSpace(s, 0);
    s[a..TrimEnd(s, a, |s|)]
  }

  /** What `strip` drops is whitespace, and only at the ends: the result is
      a slice of the input with whitespace either side. */
  lemma StripSlice(s: string)
    ensures exists a: nat :: a + |Strip(s)| <= |s| && Strip(s) == s[a..a + |Strip(s)|]
                             && SpaceBetween(s, 0, a) && SpaceBetween(s, a + |Strip(s)|, |s|)
  {
    var a := SkipSpace(s, 0);
    assert Strip(s) == s[a..a + |Strip(s)|];
  }

  /** Stripping a string whose ends are not whitespace changes nothing. */
  lemma StripStripped(s: string)
    requires Stripped(s)
    ensures Strip(s) == s
  {
    assert SkipSpace(s, 0) == 0;
    assert s[0..|s|] == s;
  }

  /** `strip` is idempotent. */
  lemma StripIdempotent(s: string)
    ensures Strip(Strip(s)) == Strip(s)
  {
    StripStripped(Strip(s));
  }

  /** `SkipSpace` stops at the first index from `i` on that does not hold
      whitespace. */
  lemma {:induction false} SkipSpaceReaches(s: string, i: nat, a: nat)
    requires i <= a <= |s| && SpaceBetween(s, i, a)
    requires a < |s| ==> !IsSpace(s[a])
    ensures SkipSpace(s, i) == a
    decreases a - i
  {
    if i < a {
      SkipSpaceReaches(s, i + 1, a);
    }
  }

  /** `TrimEnd` stops right after the last index below `j` that does not
      hold whitespace. */
  lemma {:induction false} TrimEndReaches(s: string, lo: nat, j: nat, b: nat)
    requires lo <= b <= j <= |s| && SpaceBetween(s, b, j)
    requires b > lo ==> !IsSpace(s[b - 1])
    ensures TrimEnd(s, lo, j) == b
    decreases j
  {
    if j > b {
      TrimEndReaches(s, lo, j - 1, b);
    }
  }

  /** A slice with non-whitespace ends and only whitespace around it is
      what `strip` leaves. */
  lemma StripUnique(s: string, a: nat, b: nat)
    requires a < b <= |s| && SpaceBetween(s, 0, a) && SpaceBetween(s, b, |s|)
    requires !IsSpace(s[a]) && !IsSpace(s[b - 1])
    ensures Strip(s) == s[a..b]
  {
    SkipSpaceReaches(s, 0, a);
    TrimEndReaches(s, a, |s|, b);
  }

  /** An all-whitespace string strips to "". */
  lemma StripAllSpace(s: string)
    requires AllSpace(s)
    ensures Strip(s) == ""
  {
    SkipSpaceReaches(s, 0, |s|);
  }

  /** `SkipSpace` passes every whitespace character in front of it. */
  lemma {:induction false} SkipSpacePast(s: string, i: nat, a: nat)
    requires i <= a <= |s| && SpaceBetween(s, i, a)
    ensures a <= SkipSpace(s, i)
    decreases a - i
  {
    if i < a {
      SkipSpacePast(s, i + 1, a);
    }
  }

  /** `TrimEnd` drops every whitespace character behind it, down to `lo`. */
  lemma {:induction false} TrimEndBefore(s: string, lo: nat, j: nat, b: nat)
    requires lo <= j <= |s| && b <= j && SpaceBetween(s, b, j)
    ensures TrimEnd(s, lo, j) <= if lo <= b then b else lo
    decreases j
  {
    if j > b && j > lo {
      TrimEndBefore(s, lo, j - 1, b);
    }
  }

  /** Whitespace in `s` is whitespace at the shifted place in `s[a..]`. */
  lemma SpaceSuffix(s: string, a: nat, i: nat, j: nat)
    requires a <= i <= j <= |s| && SpaceBetween(s, i, j)
    ensures SpaceBetween(s[a..], i - a, j - a)
    ensures j == |s| && i == a ==> AllSpace(s[a..])
  {
    assert forall k :: i - a <= k < j - a ==> s[a..][k] == s[a + k];
  }

  /** Dropping leading whitespace does not change what `strip` gives. */
  lemma StripFrom(s: string, a: nat)
    requires a <= |s| && SpaceBetween(s, 0, a)
    ensures Strip(s[a..]) == Strip(s)
  {
    var t := s[a..];
    var i := SkipSpace(s, 0);
    var j := TrimEnd(s, i, |s|);
    SkipSpacePast(s, 0, a);
    if Strip(s) == "" {
      StripEmptyIsBlank(s);
      SpaceSuffix(s, a, a, |s|);
      StripAllSpace(t);
    } else {
      SpaceSuffix(s, a, a, i);
      SpaceSuffix(s, a, j, |s|);
      assert t[i - a] == s[i] && t[j - a - 1] == s[j - 1];
      assert t[i - a..j - a] == s[i..j];
      StripUnique(t, i - a, j - a);
    }
  }

  /** Dropping trailing whitespace does not change what `strip` gives. */
  lemma StripUpTo(s: string, b: nat)
    requires b <= |s| && SpaceBetween(s, b, |s|)
    ensures Strip(s[..b]) == Strip(s)
  {
    var t := s[..b];
    var i := SkipSpace(s, 0);
    var j := TrimEnd(s, i, |s|);
    assert forall k :: 0 <= k < |t| ==> t[k] == s[k];
    if Strip(s) == "" {
      StripEmptyIsBlank(s);
      StripAllSpace(t);
    } else {
      TrimEndBefore(s, i, |s|, b);
      assert t[i..j] == s[i..j];
      StripUnique(t, i, j);
    }
  }

  /** A stripped text between two runs of whitespace is what `strip`
      leaves. */
  lemma StripPieces(pre: string, mid: string, post: string)
    requires AllSpace(pre) && Stripped(mid) && AllSpace(post)
    ensures Strip(pre + (mid + post)) == mid
  {
    var s := pre + (mid + post);
    assert forall k :: 0 <= k < |pre| ==> s[k] == pre[k];
    assert forall k :: |pre| <= k < |pre| + |mid| ==> s[k] == mid[k - |pre|];
    assert forall k :: |pre| + |mid| <= k < |s| ==> s[k] == post[k - |pre| - |mid|];
    if |mid| == 0 {
      StripAllSpace(s);
    } else {
      assert s[|pre|..|pre| + |mid|] == mid;
      StripUnique(s, |pre|, |pre| + |mid|);
    }
  }

  /** Only an all-whitespace string strips to "". */
  lemma StripEmptyIsBlank(s: string)
    ensures Strip(s) == "" ==> AllSpace(s)
  {
    var a := SkipSpace(s, 0);
    var b := TrimEnd(s, a, |s|);
    if Strip(s) == "" {
      assert a == b;
      forall k | 0 <= k < |s| ensures IsSpace(s[k]) {
        assert SpaceBetween(s, 0, a) && SpaceBetween(s, b, |s|);
      }
    }
  }

  predicate StartsWith(s: string, prefix: string) {
    |prefix| <= |s| && s[..|prefix|] == prefix
  }

  predicate EndsWith(s: string, suffix: string) {
    |suffix| <= |s| && s[|s| - |suffix|..] == suffix
  }

  /** `sub in s` */
  predicate Contains(s: string, sub: string) {
    exists i :: 0 <= i <= |s| - |sub| && OccursAt(s, i, sub)
  }

  predicate OccursAt(s: string, i: nat, sub: string) {
    i + |sub| <= |s| && s[i..i + |sub|] == sub
  }

  /** Index of the first `c` in `s`, if any (`s.find(c)`). */
  function IndexOf(s: string, c: char): (r: Option<nat>)
    ensures r.None? ==> c !in s
    ensures r.Some? ==> r.value < |s| && s[r.value] == c && c !in s[..r.value]
  {
    if |s| == 0 then None
    else if s[0] == c then Some(0)
    else match IndexOf(s[1..], c)
      case None => None
      case Some(i) => assert s[1..][..i] == s[1..i + 1]; Some(i + 1)
  }

  /** `sep.join(parts)` for a one-character separator. */
  function Join(parts: seq<string>, sep: char): string
  {
    if |parts| == 0 then ""
    else if |parts| == 1 then parts[0]
    else parts[0] + [sep] + Join(parts[1..], sep)
  }

  /** `s.split(sep)` for a one-character separator: every piece between two
      separators, empty pieces included. */
  function Split(s: string, sep: char): (parts: seq<string>)
    ensures |parts| >= 1
    ensures forall k :: 0 <= k < |parts| ==> sep !in parts[k]
    ensures Join(parts, sep) == s
    decreases |s|
  {
    match IndexOf(s, sep)
    case None => [s]
    case Some(i) =>
      var rest := Split(s[i + 1..], sep);
      assert s == s[..i] + [sep] + s[i + 1..];
      [s[..i]] + rest
  }

  /** Splitting is the inverse of joining pieces that hold no separator. */
  lemma {:induction false} SplitJoin(parts: seq<string>, sep: char)
    requires |parts| >= 1
    requires forall k :: 0 <= k < |parts| ==> sep !in parts[k]
    ensures Split(Join(parts, sep), sep) == parts
  {
    if |parts| > 1 {
      var s := Join(parts, sep);
      var tail := Join(parts[1..], sep);
      assert s == parts[0] + [sep] + tail;
      assert s[|parts[0]|] == sep;
      assert s[..|parts[0]|] == parts[0];
      assert IndexOf(s, sep) == Some(|parts[0]|);
      assert s[|parts[0]| + 1..] == tail;
      SplitJoin(parts[1..], sep);
    } else {
      assert IndexOf(parts[0], sep) == None;
    }
  }

  /** Joining one more piece appends a separator and the piece. */
  lemma {:induction false} JoinSnoc(parts: seq<string>, x: string, sep: char)
    requires |parts| >= 1
    ensures Join(parts + [x], sep) == Join(parts, sep) + [sep] + x
    decreases |parts|
  {
    if |parts| > 1 {
      assert (parts + [x])[1..] == parts[1..] + [x];
      JoinSnoc(parts[1..], x, sep);
    }
  }

  /** A last piece without the separator splits off on its own. */
  lemma SplitSnoc(s: string, x: string, sep: char)
    requires sep !in x
    ensures Split(s + [sep] + x, sep) == Split(s, sep) + [x]
  {
    var parts := Split(s, sep);
    JoinSnoc(parts, x, sep);
    SplitJoin(parts + [x], sep);
  }

  /** `s.split(sep, 1)`: one piece, or the pieces either side of the first
      separator. */
  function SplitOnce(s: string, sep: char): (parts: seq<string>)
    ensures 1 <= |parts| <= 2
    ensures sep !in parts[0]
    ensures |parts| == 1 <==> sep !in s
    ensures |parts| == 2 ==> s == parts[0] + [sep] + parts[1]
  {
    match IndexOf(s, sep)
    case None => [s]
    case Some(i) =>
      assert s == s[..i] + [sep] + s[i + 1..];
      [s[..i], s[i + 1..]]
  }

  /** The first separator decides where `split(sep, 1)` cuts. */
  lemma SplitOnceAt(a: string, b: string, sep: char)
    requires sep !in a
    ensures SplitOnce(a + [sep] + b, sep) == [a, b]
  {
    var s := a + [sep] + b;
    IndexOfFirst(s, sep, |a|);
    assert s[..|a|] == a && s[|a| + 1..] == b;
  }

  lemma {:induction false} IndexOfFirst(s: string, c: char, i: nat)
    requires i < |s| && s[i] == c && c !in s[..i]
    ensures IndexOf(s, c) == Some(i)
  {
    if i > 0 {
      assert s[0] == s[..i][0];
      assert s[1..][..i - 1] == s[1..i];
      IndexOfFirst(s[1..], c, i - 1);
    }
  }

  /** `s.lstrip(c)` for a single character `c`. */
  function LStripChar(s: string, c: char): (r: string)
    ensures |r| <= |s| && r == s[|s| - |r|..]
    ensures forall i :: 0 <= i < |s| - |r| ==> s[i] == c
    ensures |r| > 0 ==> r[0] != c
    decreases |s|
  {
    if |s| > 0 && s[0] == c then LStripChar(s[1..], c) else s
  }

  /** `s.replace(c, '')` */
  function RemoveChar(s: string, c: char): (r: string)
    ensures c !in r
    ensures |r| <= |s|
    ensures c !in s ==> r == s
    ensures forall x :: x != c ==> multiset(r)[x] == multiset(s)[x]
    decreases |s|
  {
    if |s| == 0 then ""
    else
      assert s == [s[0]] + s[1..];
      if s[0] == c then RemoveChar(s[1..], c) else [s[0]] + RemoveChar(s[1..], c)
  }

  /** Removal works piece by piece: the other characters keep their order,
      and a single character goes exactly when it is `c`. */
  lemma {:induction false} RemoveCharAppend(a: string, b: string, c: char)
    ensures RemoveChar(a + b, c) == RemoveChar(a, c) + RemoveChar(b, c)
    ensures forall x :: RemoveChar([x], c) == if x == c then "" else [x]
    decreases |a|
  {
    if |a| > 0 {
      assert (a + b)[0] == a[0] && (a + b)[1..] == a[1..] + b;
      RemoveCharAppend(a[1..], b, c);
    } else {
      assert a + b == b;
    }
    forall x ensures RemoveChar([x], c) == if x == c then "" else [x] {
      assert [x][1..] == "";
    }
  }

  function LowerChar(c: char): char {
    if 'A' <= c <= 'Z' then (c as int + 32) as char else c
  }

  /** `s.lower()` on the ASCII letters. */
  function Lower(s: string): (r: string)
    ensures |r| == |s|
    ensures forall i :: 0 <= i < |s| ==> r[i] == LowerChar(s[i])
  {
    seq(|s|, i requires 0 <= i < |s| => LowerChar(s[i]))
  }

  lemma LowerIdempotent(s: string)
    ensures Lower(Lower(s)) == Lower(s)
  {
  }

  /** Case-insensitive comparison of `s[i..]` with the ASCII word `w`, the
      way `re.IGNORECASE` compares a literal. */
  predicate MatchesIgnoreCase(s: string, i: nat, w: string) {
    i + |w| <= |s| && forall k :: 0 <= k < |w| ==> LowerChar(s[i + k]) == LowerChar(w[k])
  }

  function DigitChar(d: nat): char
    requires d < 10
  {
    ('0' as int + d) as char
  }

  function DigitValue(c: char): nat {
    if IsDigit(c) then c as int - '0' as int else 0
  }

  function Pow10(n: nat): nat {
    if n == 0 then 1 else 10 * Pow10(n - 1)
  }

  /** The decimal value of the digits `s`, most significant digit first. */
  function DecimalValue(s: string): nat {
    if |s| == 0 then 0 else DigitValue(s[0]) * Pow10(|s| - 1) + DecimalValue(s[1..])
  }

  /** One more digit at the end shifts the value one place. */
  lemma {:induction false} DecimalSnoc(s: string, c: char)
    ensures DecimalValue(s + [c]) == DecimalValue(s) * 10 + DigitValue(c)
  {
    if |s| > 0 {
      var t := s + [c];
      assert t[0] == s[0] && t[1..] == s[1..] + [c];
      DecimalSnoc(s[1..], c);
      assert Pow10(|s|) == 10 * Pow10(|s| - 1);
      calc {
        DecimalValue(t);
        DigitValue(s[0]) * Pow10(|s|) + DecimalValue(s[1..] + [c]);
        DigitValue(s[0]) * (10 * Pow10(|s| - 1)) + (DecimalValue(s[1..]) * 10 + DigitValue(c));
        (DigitValue(s[0]) * Pow10(|s| - 1) + DecimalValue(s[1..])) * 10 + DigitValue(c);
      }
    }
  }

  /** `str(n)` for a natural number: its decimal digits, no leading zero. */
  function NatToString(n: nat): (r: string)
    ensures |r| >= 1
    ensures forall i :: 0 <= i < |r| ==> IsDigit(r[i])
    ensures n < 10 ==> |r| == 1
    ensures n >= 10 ==> |r| >= 2 && r[0] != '0'
    ensures DecimalValue(r) == n
    decreases n
  {
    if n < 10 then [DigitChar(n)]
    else
      var front := NatToString(n / 10);
      DecimalSnoc(front, DigitChar(n % 10));
      front + [DigitChar(n % 10)]
  }

  /** Distinct numbers print differently. */
  lemma {:induction false} NatToStringInjective(a: nat, b: nat)
    requires NatToString(a) == NatToString(b)
    ensures a == b
  {
    // Both strings have the same decimal value, which is the number.
  }

  /** `str(i)` for an integer. */
  function IntToString(i: int): (r: string)
    ensures |r| >= 1
  {
    if i < 0 then "-" + NatToString(-i) else NatToString(i)
  }
}
