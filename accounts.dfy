/** The account record, phone normalisation, session-file naming and the
    `phone|url` configuration line (telegram_multi_sender.py). */
module Accounts {
  import opened Text
  import opened Protocol

  /** `TelegramAccount`; `session_file` is the path without `.session`. */
  datatype TelegramAccount = TelegramAccount(
    phone: string,
    sessionFile: string,
    apiUrl: string,
    name: string,
    username: string,
    userId: int,
    loggedIn: bool,
    lastActive: string)

  /** `_normalize_phone`: the trimmed input, with `+` put in front when it
      does not already start with one. */
  function NormalizePhone(phone: string): (r: string)
    ensures |r| > 0 && r[0] == '+'
  {
    var p := Strip(phone);
    if StartsWith(p, "+") then p else "+" + p
  }

  /** The normal form is stripped, and it is the trimmed input itself
      exactly when that already starts with `+`, else the trimmed input
      behind a `+`. */
  lemma NormalizeShape(phone: string)
    ensures Stripped(NormalizePhone(phone))
    ensures NormalizePhone(phone) == Strip(phone) || NormalizePhone(phone) == "+" + Strip(phone)
    ensures NormalizePhone(phone) == Strip(phone) <==> StartsWith(Strip(phone), "+")
  {
    var p := Strip(phone);
    if !StartsWith(p, "+") {
      assert NormalizePhone(phone) == "+" + p;
      assert NormalizePhone(phone)[0] == '+';
      assert |p| == 0 || p[0] != '+';
    }
  }

  /** `f` applied to every element of `s`, in order. */
  function MapSeq(f: string -> string, s: seq<string>): (r: seq<string>)
    ensures |r| == |s|
    ensures forall j {:trigger f(s[j])} :: 0 <= j < |s| ==> r[j] == f(s[j])
  {
    if |s| == 0 then []
    else
      var front := s[..|s| - 1];
      var r := MapSeq(f, front) + [f(s[|s| - 1])];
      assert forall j :: 0 <= j < |front| ==> r[j] == MapSeq(f, front)[j] && front[j] == s[j];
      r
  }

  /** The keys as `_normalize_phone` normalises them, one by one. */
  function NormalizeAll(keys: seq<string>): (r: seq<string>)
    ensures |r| == |keys|
    ensures forall j {:trigger NormalizePhone(keys[j])} :: 0 <= j < |keys| ==> r[j] == NormalizePhone(keys[j])
  {
    var f := NormalizePhone;
    assert forall j :: 0 <= j < |keys| ==> f(keys[j]) == NormalizePhone(keys[j]);
    MapSeq(f, keys)
  }

  /** Normalising twice is normalising once. */
  lemma NormalizeIdempotent(phone: string)
    ensures NormalizePhone(NormalizePhone(phone)) == NormalizePhone(phone)
  {
    StripStripped(NormalizePhone(phone));
  }

  /** Inputs that differ only by surrounding whitespace and a leading `+`
      address the same key. */
  lemma {:induction false} NormalizeIgnoresPlusAndSpace(phone: string)
    requires !StartsWith(Strip(phone), "+")
    ensures NormalizePhone("+" + Strip(phone)) == NormalizePhone(phone)
  {
    var t := Strip(phone);
    var q := "+" + t;
    assert Stripped(q) by {
      assert q[0] == '+';
      assert |t| > 0 ==> q[|q| - 1] == t[|t| - 1];
    }
    StripStripped(q);
  }

  /** `os.path.join(a, b)` on a POSIX system. */
  function JoinPath(a: string, b: string): (r: string)
    ensures EndsWith(r, b)
  {
    if StartsWith(b, "/") then b
    else if a == "" || EndsWith(a, "/") then a + b
    else a + "/" + b
  }

  /** The session file of `add_account`: the session directory joined with
      the phone stripped of every `+`. */
  function SessionFileFor(sessionDir: string, phone: string): string
  {
    JoinPath(sessionDir, RemoveChar(phone, '+'))
  }

  /** The session file is named after the phone's digits: it ends with the
      phone with every `+` removed, and that name holds no `+`. */
  lemma SessionFileNamedAfterPhone(sessionDir: string, phone: string)
    ensures EndsWith(SessionFileFor(sessionDir, phone), RemoveChar(phone, '+'))
    ensures '+' !in RemoveChar(phone, '+')
  {
  }

  /** The record `add_account` stores for an already normalised phone. */
  function NewAccount(sessionDir: string, phone: string, apiUrl: string): (a: TelegramAccount)
    ensures a.phone == phone && a.apiUrl == apiUrl
    ensures a.sessionFile == SessionFileFor(sessionDir, phone)
    ensures a.name == "" && a.username == "" && a.userId == 0 && !a.loggedIn && a.lastActive == ""
  {
    TelegramAccount(phone, SessionFileFor(sessionDir, phone), apiUrl, "", "", 0, false, "")
  }

  /** `f"{first} {last}".strip()`, the display name built from a profile. */
  function DisplayName(firstName: string, lastName: string): string
  {
    Strip(firstName + " " + lastName)
  }

  /** The fields `login_account` and the tdata import fill in from the
      profile returned by `get_me()`; the phone, session file and URL stay. */
  function WithProfile(a: TelegramAccount, me: Me, now: string): (r: TelegramAccount)
    ensures r.phone == a.phone && r.sessionFile == a.sessionFile && r.apiUrl == a.apiUrl
    ensures r.name == DisplayName(me.firstName, me.lastName) && r.username == me.username
    ensures r.userId == me.id && r.loggedIn && r.lastActive == now
  {
    a.(name := DisplayName(me.firstName, me.lastName), username := me.username,
       userId := me.id, loggedIn := true, lastActive := now)
  }

  /** `parse_account_config`: split the trimmed line at its first `|`, trim
      both halves; no `|` means no URL. */
  function ParseAccountConfig(line: string): (r: (string, string))
    ensures Stripped(r.0) && Stripped(r.1)
    ensures '|' !in r.0
    ensures '|' !in Strip(line) ==> r == (Strip(line), "")
  {
    var parts := SplitOnce(Strip(line), '|');
    StripIdempotent(line);
    (Strip(parts[0]), if |parts| > 1 then Strip(parts[1]) else "")
  }

  /** Trimmed phone without `|`, trimmed URL: the line `phone|url` parses
      back to the pair. */
  lemma {:induction false} ParseAccountConfigRoundTrip(phone: string, url: string)
    requires Stripped(phone) && '|' !in phone
    requires Stripped(url)
    ensures ParseAccountConfig(phone + "|" + url) == (phone, url)
  {
    var line := phone + "|" + url;
    StrippedAround(phone, url);
    StripStripped(line);
    SplitOnceAt(phone, url, '|');
    StripStripped(phone);
    StripStripped(url);
    assert Strip(line) == line;
    assert SplitOnce(Strip(line), '|') == [phone, url];
  }

  /** Any line with a `|`: the phone is the text before the first bar and
      the URL the text after it, each stripped. */
  lemma ParseAccountConfigSplit(p: string, u: string)
    requires '|' !in p
    ensures ParseAccountConfig(p + "|" + u) == (Strip(p), Strip(u))
  {
    var a := SkipSpace(p, 0);
    var b := TrimEnd(u, 0, |u|);
    StripAroundBar(p, u);
    NoBarAfter(p, a);
    SplitOnceAt(p[a..], u[..b], '|');
    StripFrom(p, a);
    StripUpTo(u, b);
  }

  /** A suffix of a text without `|` has none either. */
  lemma NoBarAfter(p: string, a: nat)
    requires a <= |p| && '|' !in p
    ensures '|' !in p[a..]
  {
    assert forall k :: 0 <= k < |p| - a ==> p[a..][k] == p[a + k];
  }

  /** Stripping `p|u` drops the whitespace in front of `p` and behind `u`:
      the bar keeps the rest. */
  lemma StripAroundBar(p: string, u: string)
    ensures Strip(p + "|" + u) == p[SkipSpace(p, 0)..] + "|" + u[..TrimEnd(u, 0, |u|)]
  {
    var a := SkipSpace(p, 0);
    var b := TrimEnd(u, 0, |u|);
    SpaceSlices(p, u, a, b);
    BarStripped(p, u, a, b);
    BarPieces(p, u, a, b);
    StripPieces(p[..a], p[a..] + "|" + u[..b], u[b..]);
  }

  /** The whitespace in front of `p` and behind `u`, as strings. */
  lemma SpaceSlices(p: string, u: string, a: nat, b: nat)
    requires a <= |p| && SpaceBetween(p, 0, a)
    requires b <= |u| && SpaceBetween(u, b, |u|)
    ensures AllSpace(p[..a]) && AllSpace(u[b..])
  {
    assert forall k :: 0 <= k < a ==> p[..a][k] == p[k];
    assert forall k :: 0 <= k < |u| - b ==> u[b..][k] == u[b + k];
  }

  /** The text between that whitespace has no whitespace at its ends. */
  lemma BarStripped(p: string, u: string, a: nat, b: nat)
    requires a <= |p| && (a < |p| ==> !IsSpace(p[a]))
    requires b <= |u| && (b > 0 ==> !IsSpace(u[b - 1]))
    ensures Stripped(p[a..] + "|" + u[..b])
  {
    var mid := p[a..] + "|" + u[..b];
    assert mid[0] == if a < |p| then p[a] else '|';
    assert mid[|mid| - 1] == if b > 0 then u[b - 1] else '|';
  }

  /** The line is the whitespace in front, the text, and the whitespace behind. */
  lemma BarPieces(p: string, u: string, a: nat, b: nat)
    requires a <= |p| && b <= |u|
    ensures p + "|" + u == p[..a] + ((p[a..] + "|" + u[..b]) + u[b..])
  {
    assert p == p[..a] + p[a..];
    assert u == u[..b] + u[b..];
  }

  lemma StrippedAround(a: string, b: string)
    requires Stripped(a) && Stripped(b)
    ensures Stripped(a + "|" + b)
  {
    var line := a + "|" + b;
    assert line[0] == if |a| > 0 then a[0] else '|';
    assert line[|line| - 1] == if |b| > 0 then b[|b| - 1] else '|';
  }
}
