/** The scraping of a verification-code page (`_fetch_code_from_url`,
    `_fetch_2fa_from_url`). Each regular expression is written out as a
    match at one position plus a leftmost search, with the backtracking
    `re.search` does:

      code:  (?:code|验证码|Code)[:\s]*(\d{5,6})   then   (\d{5,6})
      2FA:   (?:2fa|password|密码|Password)[:\s]*([^\s<]+)

    both with `re.IGNORECASE`. */
module Scanner {
  import opened Wrappers
  import opened Text
  import opened Protocol

  /** A character of `[:\s]`. */
  predicate IsSep(c: char) {
    c == ':' || IsSpace(c)
  }

  /** A character of `[^\s<]`. */
  predicate IsTokenChar(c: char) {
    !IsSpace(c) && c != '<'
  }

  function Min(a: nat, b: nat): nat {
    if a < b then a else b
  }

  /** Length of the longest run of separators starting at `i`. */
  function SepRun(s: string, i: nat): (n: nat)
    requires i <= |s|
    ensures i + n <= |s|
    ensures forall k :: i <= k < i + n ==> IsSep(s[k])
    ensures i + n < |s| ==> !IsSep(s[i + n])
    decreases |s| - i
  {
    if i < |s| && IsSep(s[i]) then 1 + SepRun(s, i + 1) else 0
  }

  /** Length of the longest run of ASCII digits starting at `i`. */
  function DigitRun(s: string, i: nat): (n: nat)
    requires i <= |s|
    ensures i + n <= |s|
    ensures forall k :: i <= k < i + n ==> IsDigit(s[k])
    ensures i + n < |s| ==> !IsDigit(s[i + n])
    decreases |s| - i
  {
    if i < |s| && IsDigit(s[i]) then 1 + DigitRun(s, i + 1) else 0
  }

  /** Length of the longest run of `[^\s<]` starting at `i`. */
  function TokenRun(s: string, i: nat): (n: nat)
    requires i <= |s|
    ensures i + n <= |s|
    ensures forall k :: i <= k < i + n ==> IsTokenChar(s[k])
    ensures i + n < |s| ==> !IsTokenChar(s[i + n])
    decreases |s| - i
  {
    if i < |s| && IsTokenChar(s[i]) then 1 + TokenRun(s, i + 1) else 0
  }

  /** `\d{5,6}` at `j`, greedy: six digits when there are six, else five. */
  function DigitsAt(s: string, j: nat): (r: Option<string>)
    requires j <= |s|
    ensures r.Some? <==> DigitRun(s, j) >= 5
    ensures r.Some? ==> OccursAt(s, j, r.value) && |r.value| == Min(DigitRun(s, j), 6)
  {
    var d := DigitRun(s, j);
    if d < 5 then None else Some(s[j..j + Min(d, 6)])
  }

  /** A match of `\d{5,6}` is five or six digits found in the text. */
  lemma DigitsAtShape(s: string, j: nat)
    requires j <= |s| && DigitsAt(s, j).Some?
    ensures var v := DigitsAt(s, j).value;
            5 <= |v| <= 6 && Contains(s, v) && forall k :: 0 <= k < |v| ==> IsDigit(v[k])
  {
    var v := DigitsAt(s, j).value;
    forall k | 0 <= k < |v| ensures IsDigit(v[k]) {
      assert v[k] == s[j + k];
    }
  }

  /** Length of the code keyword (`code` in any case, or `验证码`) at `i`,
      0 when there is none. */
  function CodeKeyword(s: string, i: nat): (k: nat)
    requires i <= |s|
    ensures i + k <= |s|
  {
    if MatchesIgnoreCase(s, i, "code") then 4
    else if OccursAt(s, i, "验证码") then 3
    else 0
  }

  /** Length of the 2FA keyword (`2fa` or `password` in any case, or `密码`)
      at `i`, 0 when there is none. */
  function PasswordKeyword(s: string, i: nat): (k: nat)
    requires i <= |s|
    ensures i + k <= |s|
  {
    if MatchesIgnoreCase(s, i, "2fa") then 3
    else if MatchesIgnoreCase(s, i, "password") then 8
    else if OccursAt(s, i, "密码") then 2
    else 0
  }

  /** Every separator before position `q + n`: `[:\s]*` can consume `n`
      characters at `q`. */
  predicate SepsFor(s: string, q: nat, n: nat) {
    q + n <= |s| && forall k :: q <= k < q + n ==> IsSep(s[k])
  }

  /** The labelled pattern at `i`. The separator run is taken whole: giving
      back a separator cannot help, since no separator is a digit. */
  function LabelledAt(s: string, i: nat): (r: Option<string>)
    requires i <= |s|
    ensures CodeKeyword(s, i) == 0 ==> r.None?
    ensures CodeKeyword(s, i) > 0 ==>
              var q := i + CodeKeyword(s, i);
              r == DigitsAt(s, q + SepRun(s, q))
  {
    var k := CodeKeyword(s, i);
    if k == 0 then None
    else
      var q := i + k;
      var j := q + SepRun(s, q);
      DigitsAt(s, j)
  }

  /** The bare pattern `(\d{5,6})` at `i`. */
  function BareAt(s: string, i: nat): (r: Option<string>)
    requires i <= |s|
    ensures r.Some? <==> DigitRun(s, i) >= 5
    ensures r.Some? ==> OccursAt(s, i, r.value) && |r.value| == Min(DigitRun(s, i), 6)
  {
    DigitsAt(s, i)
  }

  /** `[^\s<]` can start right after `n` separators at `q`. */
  predicate TokenCanStart(s: string, q: nat, n: nat) {
    q + n < |s| && IsTokenChar(s[q + n])
  }

  /** No run of separators at `q` is longer than the longest one. */
  lemma SepsWithinRun(s: string, q: nat)
    requires q <= |s|
    ensures forall n: nat :: SepsFor(s, q, n) ==> n <= SepRun(s, q)
  {
    var m := SepRun(s, q);
    forall n: nat | SepsFor(s, q, n) ensures n <= m {
      assert forall k :: q <= k < q + n ==> IsSep(s[k]);
    }
  }

  /** Backtracking of the greedy `[:\s]*` after the 2FA keyword: the longest
      `n <= j` after which `[^\s<]` can start. A `:` is itself a token
      character, so a token may begin inside the separator run. */
  function TokenStart(s: string, q: nat, j: nat): (t: Option<nat>)
    requires SepsFor(s, q, j)
    ensures t.Some? ==> q <= t.value <= q + j && TokenCanStart(s, q, t.value - q)
    ensures t.Some? ==> forall n: nat :: t.value - q < n <= j ==> !TokenCanStart(s, q, n)
    ensures t.None? ==> forall n: nat :: n <= j ==> !TokenCanStart(s, q, n)
    decreases j
  {
    if TokenCanStart(s, q, j) then Some(q + j)
    else if j == 0 then None
    else TokenStart(s, q, j - 1)
  }

  /** The 2FA pattern at `i`: the keyword, the separators `[:\s]*` gives up
      the fewest of, then the longest run of `[^\s<]`. */
  function PasswordAt(s: string, i: nat): (r: Option<string>)
    requires i <= |s|
    ensures r.Some? ==> |r.value| >= 1 && Contains(s, r.value)
                        && forall k :: 0 <= k < |r.value| ==> IsTokenChar(r.value[k])
    ensures r.Some? ==> PasswordKeyword(s, i) > 0
    ensures PasswordKeyword(s, i) > 0 ==>
              var q := i + PasswordKeyword(s, i);
              (r.Some? <==> exists n: nat :: SepsFor(s, q, n) && TokenCanStart(s, q, n))
    ensures r.Some? ==>
              var q := i + PasswordKeyword(s, i);
              var t := TokenStart(s, q, SepRun(s, q));
              t.Some? && OccursAt(s, t.value, r.value) && |r.value| == TokenRun(s, t.value)
  {
    var k := PasswordKeyword(s, i);
    if k == 0 then None
    else
      var q := i + k;
      var m := SepRun(s, q);
      match TokenStart(s, q, m)
      case None =>
        SepsWithinRun(s, q);
        None
      case Some(t) =>
        var g := s[t..t + TokenRun(s, t)];
        assert OccursAt(s, t, g);
        assert SepsFor(s, q, t - q);
        Some(g)
  }

  /** The labelled code pattern's match at each position `0..|s|`. */
  function LabelledMatches(s: string): (ms: seq<Option<string>>)
    ensures |ms| == |s| + 1
    ensures forall j {:trigger ms[j]} :: 0 <= j <= |s| ==> ms[j] == LabelledAt(s, j)
  {
    seq(|s| + 1, j requires 0 <= j <= |s| => LabelledAt(s, j))
  }

  /** The bare code pattern's match at each position `0..|s|`. */
  function BareMatches(s: string): (ms: seq<Option<string>>)
    ensures |ms| == |s| + 1
    ensures forall j {:trigger ms[j]} :: 0 <= j <= |s| ==> ms[j] == BareAt(s, j)
  {
    seq(|s| + 1, j requires 0 <= j <= |s| => BareAt(s, j))
  }

  /** The 2FA pattern's match at each position `0..|s|`. */
  function PasswordMatches(s: string): (ms: seq<Option<string>>)
    ensures |ms| == |s| + 1
    ensures forall j {:trigger ms[j]} :: 0 <= j <= |s| ==> ms[j] == PasswordAt(s, j)
  {
    seq(|s| + 1, j requires 0 <= j <= |s| => PasswordAt(s, j))
  }

  /** `re.search` over the matches `ms` at each position: the leftmost
      position from `i` on where there is a match, with that match. */
  function Leftmost(ms: seq<Option<string>>, i: nat): (r: Option<(nat, string)>)
    requires i <= |ms|
    ensures r.Some? ==> i <= r.value.0 < |ms| && ms[r.value.0] == Some(r.value.1)
    ensures r.Some? ==> forall j :: i <= j < r.value.0 ==> ms[j].None?
    ensures r.None? ==> forall j :: i <= j < |ms| ==> ms[j].None?
    decreases |ms| - i
  {
    if i == |ms| then None
    else if ms[i].Some? then Some((i, ms[i].value))
    else Leftmost(ms, i + 1)
  }

  /** The code found in a page body: the labelled pattern if it matches
      anywhere, else the bare digit run; each at its leftmost match. */
  function ScanCode(text: string): (r: Option<string>)
    ensures r.Some? ==> 5 <= |r.value| <= 6 && Contains(text, r.value)
                        && forall k :: 0 <= k < |r.value| ==> IsDigit(r.value[k])
    ensures forall j :: 0 <= j <= |text| && LabelledAt(text, j).Some? ==>
              exists p :: 0 <= p <= j && r == LabelledAt(text, p)
                          && forall q :: 0 <= q < p ==> LabelledAt(text, q).None?
    ensures r.None? <==> forall j :: 0 <= j <= |text| ==> DigitRun(text, j) < 5
    ensures (forall j :: 0 <= j <= |text| ==> LabelledAt(text, j).None?) && r.Some? ==>
              exists p :: 0 <= p <= |text| && r == BareAt(text, p)
                          && forall q :: 0 <= q < p ==> DigitRun(text, q) < 5
  {
    match Leftmost(LabelledMatches(text), 0)
    case Some((p, g)) =>
      LabelledLeftmost(text, p, g);
      LabelledShape(text, p, g);
      Some(g)
    case None =>
      NoLabelled(text);
      match Leftmost(BareMatches(text), 0)
      case Some((p, g)) =>
        BareLeftmost(text, p, g);
        Some(g)
      case None =>
        NoBare(text);
        None
  }

  lemma LabelledLeftmost(text: string, p: nat, g: string)
    requires Leftmost(LabelledMatches(text), 0) == Some((p, g))
    ensures p <= |text| && LabelledAt(text, p) == Some(g)
    ensures forall q :: 0 <= q < p ==> LabelledAt(text, q).None?
  {
    assert LabelledMatches(text)[p] == Some(g);
    forall q | 0 <= q < p ensures LabelledAt(text, q).None? {
      assert LabelledMatches(text)[q].None?;
    }
  }

  /** Where the digits of the labelled pattern at `i` start. */
  function LabelledStart(s: string, i: nat): (j: nat)
    requires i <= |s|
    ensures j <= |s|
    ensures LabelledAt(s, i).Some? ==> LabelledAt(s, i) == DigitsAt(s, j)
  {
    var q := i + CodeKeyword(s, i);
    q + SepRun(s, q)
  }

  /** A labelled match is a digit run of five or six found in the text. */
  lemma LabelledShape(text: string, p: nat, g: string)
    requires p <= |text| && LabelledAt(text, p) == Some(g)
    ensures 5 <= |g| <= 6 && Contains(text, g) && forall k :: 0 <= k < |g| ==> IsDigit(g[k])
    ensures exists j :: 0 <= j <= |text| && DigitRun(text, j) >= 5
  {
    var j := LabelledStart(text, p);
    assert DigitsAt(text, j) == Some(g);
    DigitsAtShape(text, j);
  }

  lemma NoLabelled(text: string)
    requires Leftmost(LabelledMatches(text), 0).None?
    ensures forall j :: 0 <= j <= |text| ==> LabelledAt(text, j).None?
  {
    forall j | 0 <= j <= |text| ensures LabelledAt(text, j).None? {
      assert LabelledMatches(text)[j].None?;
    }
  }

  lemma BareLeftmost(text: string, p: nat, g: string)
    requires Leftmost(BareMatches(text), 0) == Some((p, g))
    ensures p <= |text| && BareAt(text, p) == Some(g) && DigitRun(text, p) >= 5
    ensures 5 <= |g| <= 6 && Contains(text, g) && forall k :: 0 <= k < |g| ==> IsDigit(g[k])
    ensures forall q :: 0 <= q < p ==> DigitRun(text, q) < 5
  {
    assert BareMatches(text)[p] == Some(g);
    DigitsAtShape(text, p);
    forall q | 0 <= q < p ensures DigitRun(text, q) < 5 {
      assert BareMatches(text)[q].None?;
    }
  }

  lemma NoBare(text: string)
    requires Leftmost(BareMatches(text), 0).None?
    ensures forall j :: 0 <= j <= |text| ==> DigitRun(text, j) < 5
  {
    forall j | 0 <= j <= |text| ensures DigitRun(text, j) < 5 {
      assert BareMatches(text)[j].None?;
    }
  }

  /** The 2FA password found in a page body: the leftmost match. */
  function ScanPassword(text: string): (r: Option<string>)
    ensures r.Some? ==> |r.value| >= 1 && Contains(text, r.value)
                        && forall k :: 0 <= k < |r.value| ==> IsTokenChar(r.value[k])
    ensures r.Some? <==> exists j :: 0 <= j <= |text| && PasswordAt(text, j).Some?
    ensures r.Some? ==> exists p :: 0 <= p <= |text| && r == PasswordAt(text, p)
                                    && forall q :: 0 <= q < p ==> PasswordAt(text, q).None?
  {
    match Leftmost(PasswordMatches(text), 0)
    case Some((p, g)) =>
      assert PasswordAt(text, p) == Some(g);
      assert forall q :: 0 <= q < p ==> PasswordAt(text, q).None? by {
        forall q | 0 <= q < p ensures PasswordAt(text, q).None? {
          assert PasswordMatches(text)[q].None?;
        }
      }
      Some(g)
    case None =>
      assert forall j :: 0 <= j <= |text| ==> PasswordAt(text, j).None? by {
        forall j | 0 <= j <= |text| ensures PasswordAt(text, j).None? {
          assert PasswordMatches(text)[j].None?;
        }
      }
      None
  }

  /** The pair `(code, error)` a fetch returns, with "" for `None`. */
  datatype Fetched = Fetched(value: string, error: string)

  /** `_fetch_code_from_url` once the page is fetched: `HTTP <status>` for a
      status other than 200, the scanned code, or "未找到验证码"; an
      exception yields its text as the error. */
  function FetchCode(f: Fetch): (r: Fetched)
    ensures f.FetchFailed? ==> r == Fetched("", f.reason)
    ensures f.Response? && f.status != 200 ==> r == Fetched("", "HTTP " + NatToString(f.status))
    ensures f.Response? && f.status == 200 ==>
              (r.error == "" <==> ScanCode(f.body).Some?)
              && (r.error == "" ==> r.value == ScanCode(f.body).value)
              && (r.error != "" ==> r == Fetched("", "未找到验证码"))
  {
    match f
    case FetchFailed(reason) => Fetched("", reason)
    case Response(status, body) =>
      if status != 200 then Fetched("", "HTTP " + NatToString(status))
      else match ScanCode(body)
        case Some(code) => Fetched(code, "")
        case None => Fetched("", "未找到验证码")
  }

  /** `_fetch_2fa_from_url`: as `FetchCode`, with the 2FA pattern and the
      error "未找到2FA密码". */
  function FetchPassword(f: Fetch): (r: Fetched)
    ensures f.FetchFailed? ==> r == Fetched("", f.reason)
    ensures f.Response? && f.status != 200 ==> r == Fetched("", "HTTP " + NatToString(f.status))
    ensures f.Response? && f.status == 200 ==>
              (r.error == "" <==> ScanPassword(f.body).Some?)
              && (r.error == "" ==> r.value == ScanPassword(f.body).value)
              && (r.error != "" ==> r == Fetched("", "未找到2FA密码"))
  {
    match f
    case FetchFailed(reason) => Fetched("", reason)
    case Response(status, body) =>
      if status != 200 then Fetched("", "HTTP " + NatToString(status))
      else match ScanPassword(body)
        case Some(pw) => Fetched(pw, "")
        case None => Fetched("", "未找到2FA密码")
  }
}
