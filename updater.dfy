/** `AutoUpdater`: reading the latest release (its tag, notes and the first
    Windows executable among its assets) and deciding whether its version
    is newer than the running one. */
module Updater {
  import opened Wrappers
  import opened Text

  /** `s` is a run of ASCII digits, single underscores allowed between
      two digits. */
  predicate DigitGroups(s: string) {
    && |s| > 0 && IsDigit(s[0]) && IsDigit(s[|s| - 1])
    && (forall i :: 0 <= i < |s| ==> IsDigit(s[i]) || s[i] == '_')
    && (forall i :: 0 <= i < |s| - 1 ==> !(s[i] == '_' && s[i + 1] == '_'))
  }

  /** The value of the digits of `s`, underscores skipped. */
  function GroupsValue(s: string): nat {
    if |s| == 0 then 0
    else if s[|s| - 1] == '_' then GroupsValue(s[..|s| - 1])
    else GroupsValue(s[..|s| - 1]) * 10 + DigitValue(s[|s| - 1])
  }

  /** `int(s)` on ASCII text: surrounding whitespace ignored, an optional
      sign, then digits in groups joined by single underscores; anything
      else is a `ValueError` (None). */
  function ParseInt(s: string): (r: Option<int>)
    ensures Strip(s) == "" ==> r == None
  {
    var t := Strip(s);
    if t == "" then None
    else
      var body := if t[0] == '-' || t[0] == '+' then t[1..] else t;
      if !DigitGroups(body) then None
      else
        var v: int := GroupsValue(body);
        Some(if t[0] == '-' then -v else v)
  }

  /** On plain digits, without underscores, the group value is the decimal
      value. */
  lemma {:induction false} GroupsDecimal(s: string)
    requires forall i :: 0 <= i < |s| ==> IsDigit(s[i])
    ensures GroupsValue(s) == DecimalValue(s)
  {
    if |s| > 0 {
      var front := s[..|s| - 1];
      GroupsDecimal(front);
      DecimalSnoc(front, s[|s| - 1]);
      assert front + [s[|s| - 1]] == s;
    }
  }

  lemma DigitNotSpace(c: char)
    requires IsDigit(c)
    ensures !IsSpace(c)
  {
  }

  /** Plain digits are digit groups, worth their decimal value. */
  lemma DigitsAreGroups(s: string)
    requires |s| > 0 && forall i :: 0 <= i < |s| ==> IsDigit(s[i])
    ensures DigitGroups(s) && GroupsValue(s) == DecimalValue(s)
  {
    GroupsDecimal(s);
  }

  /** `int` of a run of digits is its decimal value. */
  lemma ParseIntDigits(s: string)
    requires |s| > 0 && forall i :: 0 <= i < |s| ==> IsDigit(s[i])
    ensures ParseInt(s) == Some(DecimalValue(s))
  {
    DigitNotSpace(s[0]);
    DigitNotSpace(s[|s| - 1]);
    StripStripped(s);
    DigitsAreGroups(s);
  }

  /** A sign in front of digits survives `strip`. */
  lemma SignedStrip(sign: char, s: string)
    requires sign == '+' || sign == '-'
    requires |s| > 0 && forall i :: 0 <= i < |s| ==> IsDigit(s[i])
    ensures Strip([sign] + s) == [sign] + s && ([sign] + s)[1..] == s
  {
    var t := [sign] + s;
    assert t[0] == sign && t[|t| - 1] == s[|s| - 1] && t[1..] == s;
    DigitNotSpace(s[|s| - 1]);
    StripStripped(t);
  }

  /** `int` of `+` and a run of digits is their decimal value. */
  lemma ParseIntPlus(s: string)
    requires |s| > 0 && forall i :: 0 <= i < |s| ==> IsDigit(s[i])
    ensures ParseInt("+" + s) == Some(DecimalValue(s))
  {
    SignedStrip('+', s);
    DigitsAreGroups(s);
    assert "+" + s == ['+'] + s;
  }

  /** `int` of `-` and a run of digits is their decimal value, negated. */
  lemma ParseIntMinus(s: string)
    requires |s| > 0 && forall i :: 0 <= i < |s| ==> IsDigit(s[i])
    ensures ParseInt("-" + s).Some? && ParseInt("-" + s).value == -(DecimalValue(s) as int)
  {
    var t := "-" + s;
    assert t == ['-'] + s;
    SignedStrip('-', s);
    DigitsAreGroups(s);
    assert Strip(t)[0] == '-' && Strip(t)[1..] == s;
    assert ParseInt(t).Some?;
    assert ParseInt(t).value == -(GroupsValue(s) as int);
  }

  /** The values of a list of attempts, None as soon as one failed. */
  function AllSome(xs: seq<Option<int>>): (r: Option<seq<int>>)
    ensures r.Some? ==> |r.value| == |xs|
  {
    if |xs| == 0 then Some([])
    else
      match xs[0]
      case None => None
      case Some(x) =>
        match AllSome(xs[1..])
        case None => None
        case Some(ys) => Some([x] + ys)
  }

  /** The attempts succeed together exactly when each one does, and then
      their values are kept in order. */
  lemma {:induction false} AllSomeMeaning(xs: seq<Option<int>>)
    ensures AllSome(xs).Some? <==> forall i :: 0 <= i < |xs| ==> xs[i].Some?
    ensures AllSome(xs).Some? ==> forall i :: 0 <= i < |xs| ==> AllSome(xs).value[i] == xs[i].value
  {
    if |xs| > 0 {
      AllSomeMeaning(xs[1..]);
      if xs[0].Some? && AllSome(xs[1..]).Some? {
        forall i | 0 <= i < |xs| ensures AllSome(xs).value[i] == xs[i].value {
          if i > 0 { assert xs[i] == xs[1..][i - 1]; }
        }
      }
      if forall i :: 0 <= i < |xs| ==> xs[i].Some? {
        forall i | 0 <= i < |xs[1..]| ensures xs[1..][i].Some? {
          assert xs[1..][i] == xs[i + 1];
        }
      }
    }
  }

  /** One more attempt at the end succeeds or fails on its own. */
  lemma {:induction false} AllSomeSnoc(xs: seq<Option<int>>, x: Option<int>)
    ensures AllSome(xs + [x]) ==
              if AllSome(xs).Some? && x.Some? then Some(AllSome(xs).value + [x.value]) else None
  {
    if |xs| == 0 {
      assert xs + [x] == [x];
      assert [x][1..] == [];
      if x.Some? {
        assert [x.value] + [] == [] + [x.value];
      }
    } else {
      assert (xs + [x])[0] == xs[0];
      assert (xs + [x])[1..] == xs[1..] + [x];
      AllSomeSnoc(xs[1..], x);
      if xs[0].Some? && AllSome(xs[1..]).Some? && x.Some? {
        var y, ys := xs[0].value, AllSome(xs[1..]).value;
        assert [y] + (ys + [x.value]) == ([y] + ys) + [x.value];
      }
    }
  }

  /** `int(x)` for each part. */
  function ParseEach(parts: seq<string>): (r: seq<Option<int>>)
    ensures |r| == |parts| && forall i :: 0 <= i < |parts| ==> r[i] == ParseInt(parts[i])
  {
    seq(|parts|, i requires 0 <= i < |parts| => ParseInt(parts[i]))
  }

  lemma ParseEachSnoc(parts: seq<string>, x: string)
    ensures ParseEach(parts + [x]) == ParseEach(parts) + [ParseInt(x)]
  {
    var a, b := ParseEach(parts + [x]), ParseEach(parts) + [ParseInt(x)];
    forall i | 0 <= i < |a| ensures a[i] == b[i] {
      if i < |parts| { assert (parts + [x])[i] == parts[i]; }
    }
  }

  /** `[int(x) for x in parts]`, None when any part raises. */
  function ParseParts(parts: seq<string>): (r: Option<seq<int>>)
    ensures r.Some? ==> |r.value| == |parts|
  {
    AllSome(ParseEach(parts))
  }

  function ParseVersion(v: string): Option<seq<int>> {
    ParseParts(Split(v, '.'))
  }

  /** Python's `a > b` on lists of integers: the first differing element
      decides, and a list is greater than its proper prefixes. */
  function ListGreater(a: seq<int>, b: seq<int>): bool
    decreases |a|
  {
    if |b| == 0 then |a| > 0
    else if |a| == 0 then false
    else if a[0] != b[0] then a[0] > b[0]
    else ListGreater(a[1..], b[1..])
  }

  function Zeros(n: nat): (r: seq<int>)
    ensures |r| == n && forall i :: 0 <= i < n ==> r[i] == 0
  {
    seq(n, _ => 0)
  }

  /** `xs` with zeros appended up to length `n`. */
  function Pad(xs: seq<int>, n: nat): (r: seq<int>)
    ensures |r| == if |xs| < n then n else |xs|
  {
    if |xs| < n then xs + Zeros(n - |xs|) else xs
  }

  function Max(a: nat, b: nat): nat {
    if a < b then b else a
  }

  /** The comparison once both versions are parsed: both zero-padded to the
      same length, `l` newer when its list is greater; a failed parse means
      no update. */
  function NewerParts(c: Option<seq<int>>, l: Option<seq<int>>): (r: bool)
    ensures c.None? || l.None? ==> !r
  {
    if c.None? || l.None? then false
    else
      var n := Max(|c.value|, |l.value|);
      ListGreater(Pad(l.value, n), Pad(c.value, n))
  }

  /** `_compare_versions(current, latest)`. */
  function Newer(current: string, latest: string): bool {
    NewerParts(ParseVersion(current), ParseVersion(latest))
  }

  /** Element `i` of `xs` read as an endless list padded with zeros. */
  function ValueAt(xs: seq<int>, i: nat): int {
    if i < |xs| then xs[i] else 0
  }

  lemma ZerosSnoc(xs: seq<int>, k: nat)
    ensures xs + Zeros(k) + [0] == xs + Zeros(k + 1)
  {
    assert Zeros(k) + [0] == Zeros(k + 1);
  }

  /** Two lists extended with zeros until their lengths agree are both
      padded to the longer length. */
  lemma PaddedBoth(cv: seq<int>, lv: seq<int>, cp: seq<int>, lp: seq<int>)
    requires |cv| <= |cp| && |lv| <= |lp| && |cp| == |lp| && (|cp| == |cv| || |lp| == |lv|)
    requires cp == cv + Zeros(|cp| - |cv|) && lp == lv + Zeros(|lp| - |lv|)
    ensures var n := Max(|cv|, |lv|); cp == Pad(cv, n) && lp == Pad(lv, n)
  {
    assert cv + Zeros(0) == cv;
    assert lv + Zeros(0) == lv;
  }

  /** Where two lists first differ when both are read as padded with
      zeros, `a` holds the greater value. */
  ghost predicate PaddedGreater(a: seq<int>, b: seq<int>) {
    exists i: nat :: ValueAt(a, i) > ValueAt(b, i) && forall j: nat :: j < i ==> ValueAt(a, j) == ValueAt(b, j)
  }

  /** On lists of the same length, Python's comparison is the comparison at
      the first difference. */
  lemma {:induction false} ListGreaterSameLength(a: seq<int>, b: seq<int>)
    requires |a| == |b|
    ensures ListGreater(a, b) <==>
              exists i :: 0 <= i < |a| && a[i] > b[i] && forall j :: 0 <= j < i ==> a[j] == b[j]
    decreases |a|
  {
    if |a| > 0 {
      ListGreaterSameLength(a[1..], b[1..]);
      if a[0] == b[0] {
        if ListGreater(a, b) {
          var i :| 0 <= i < |a[1..]| && a[1..][i] > b[1..][i] && forall j :: 0 <= j < i ==> a[1..][j] == b[1..][j];
          assert a[i + 1] > b[i + 1];
          assert forall j :: 0 <= j < i + 1 ==> a[j] == b[j] by {
            forall j | 0 <= j < i + 1 ensures a[j] == b[j] {
              if j > 0 { assert a[1..][j - 1] == b[1..][j - 1]; }
            }
          }
        }
        if exists i :: 0 <= i < |a| && a[i] > b[i] && forall j :: 0 <= j < i ==> a[j] == b[j] {
          var i :| 0 <= i < |a| && a[i] > b[i] && forall j :: 0 <= j < i ==> a[j] == b[j];
          assert a[1..][i - 1] > b[1..][i - 1];
          assert forall j :: 0 <= j < i - 1 ==> a[1..][j] == b[1..][j] by {
            forall j | 0 <= j < i - 1 ensures a[1..][j] == b[1..][j] {
              assert a[j + 1] == b[j + 1];
            }
          }
        }
      }
    }
  }

  lemma PadValueAt(xs: seq<int>, n: nat)
    ensures forall i: nat :: ValueAt(Pad(xs, n), i) == ValueAt(xs, i)
  {
  }

  lemma PaddedCompareForward(c: seq<int>, l: seq<int>)
    requires var n := Max(|c|, |l|); ListGreater(Pad(l, n), Pad(c, n))
    ensures PaddedGreater(l, c)
  {
    var n := Max(|c|, |l|);
    var pl, pc := Pad(l, n), Pad(c, n);
    PadValueAt(l, n);
    PadValueAt(c, n);
    ListGreaterSameLength(pl, pc);
    var i :| 0 <= i < |pl| && pl[i] > pc[i] && forall j :: 0 <= j < i ==> pl[j] == pc[j];
    assert ValueAt(pl, i) == pl[i] && ValueAt(pc, i) == pc[i];
    forall j: nat | j < i ensures ValueAt(l, j) == ValueAt(c, j) {
      assert ValueAt(pl, j) == pl[j] && ValueAt(pc, j) == pc[j];
    }
  }

  lemma PaddedCompareBackward(c: seq<int>, l: seq<int>)
    requires PaddedGreater(l, c)
    ensures var n := Max(|c|, |l|); ListGreater(Pad(l, n), Pad(c, n))
  {
    var n := Max(|c|, |l|);
    var pl, pc := Pad(l, n), Pad(c, n);
    PadValueAt(l, n);
    PadValueAt(c, n);
    var i: nat :| ValueAt(l, i) > ValueAt(c, i) && forall j: nat :: j < i ==> ValueAt(l, j) == ValueAt(c, j);
    assert i < n;
    assert pl[i] > pc[i] by {
      assert ValueAt(pl, i) == pl[i] && ValueAt(pc, i) == pc[i];
    }
    forall j | 0 <= j < i ensures pl[j] == pc[j] {
      assert ValueAt(pl, j) == pl[j] && ValueAt(pc, j) == pc[j];
      assert ValueAt(l, j) == ValueAt(c, j);
    }
    ListGreaterSameLength(pl, pc);
  }

  /** Padded to a common length, the lists compare as their endless
      zero-padded readings do. */
  lemma PaddedCompare(c: seq<int>, l: seq<int>)
    ensures var n := Max(|c|, |l|);
            ListGreater(Pad(l, n), Pad(c, n)) <==> PaddedGreater(l, c)
  {
    var n := Max(|c|, |l|);
    if ListGreater(Pad(l, n), Pad(c, n)) {
      PaddedCompareForward(c, l);
    }
    if PaddedGreater(l, c) {
      PaddedCompareBackward(c, l);
    }
  }

  /** `latest` is newer exactly when both versions parse and, read as
      endless lists padded with zeros, `latest` is greater at the first
      place where they differ. */
  lemma NewerMeansPaddedGreater(current: string, latest: string)
    ensures Newer(current, latest) <==>
              && ParseVersion(current).Some? && ParseVersion(latest).Some?
              && PaddedGreater(ParseVersion(latest).value, ParseVersion(current).value)
  {
    var c, l := ParseVersion(current), ParseVersion(latest);
    if c.Some? && l.Some? {
      PaddedCompare(c.value, l.value);
    }
  }

  /** A version is never newer than itself. */
  lemma NewerIrreflexive(v: string)
    ensures !Newer(v, v)
  {
    NewerMeansPaddedGreater(v, v);
  }

  /** Two versions are never each newer than the other. */
  lemma NewerAsymmetric(a: string, b: string)
    ensures !(Newer(a, b) && Newer(b, a))
  {
    NewerMeansPaddedGreater(a, b);
    NewerMeansPaddedGreater(b, a);
  }

  /** A trailing ".0" adds a zero part and changes nothing else. */
  lemma ParseVersionDotZero(v: string)
    ensures ParseVersion(v + ".0") ==
              if ParseVersion(v).Some? then Some(ParseVersion(v).value + [0]) else None
  {
    SplitSnoc(v, "0", '.');
    assert v + ".0" == v + ['.'] + "0";
    ParseEachSnoc(Split(v, '.'), "0");
    AllSomeSnoc(ParseEach(Split(v, '.')), ParseInt("0"));
    ParseIntZero();
  }

  lemma ParseIntZero()
    ensures ParseInt("0") == Some(0)
  {
    StripStripped("0");
    assert GroupsValue("0") == GroupsValue("") * 10 + DigitValue('0');
  }

  lemma ZeroExtendedSameValues(xs: seq<int>)
    ensures forall i: nat :: ValueAt(xs + [0], i) == ValueAt(xs, i)
  {
  }

  /** Trailing ".0" parts do not matter: "1.0" against "1.0.0" is no
      update, in either direction. */
  lemma NewerIgnoresTrailingZero(current: string, latest: string)
    ensures Newer(current + ".0", latest) == Newer(current, latest)
    ensures Newer(current, latest + ".0") == Newer(current, latest)
  {
    ParseVersionDotZero(current);
    ParseVersionDotZero(latest);
    NewerMeansPaddedGreater(current + ".0", latest);
    NewerMeansPaddedGreater(current, latest);
    NewerMeansPaddedGreater(current, latest + ".0");
    if ParseVersion(current).Some? {
      ZeroExtendedSameValues(ParseVersion(current).value);
    }
    if ParseVersion(latest).Some? {
      ZeroExtendedSameValues(ParseVersion(latest).value);
    }
  }

  /** A version with a part `int` rejects is never an update, nor is a
      version the running one cannot be parsed against. */
  lemma UnparsablePartMeansNoUpdate(current: string, latest: string, i: nat)
    requires i < |Split(latest, '.')| && ParseInt(Split(latest, '.')[i]).None?
    ensures !Newer(current, latest)
  {
    AllSomeMeaning(ParseEach(Split(latest, '.')));
  }

  /** An empty part (as in "1..2" or "1.") and a part with a suffix (as in
      "1.0-beta") are rejected by `int`. */
  lemma RejectedParts()
    ensures ParseInt("") == None
    ensures ParseInt("0-beta") == None
  {
    StripStripped("0-beta");
    assert "0-beta"[1] == '-';
  }

  /** So a version ending in "." is never an update. */
  lemma TrailingDotMeansNoUpdate(current: string, v: string)
    ensures !Newer(current, v + ".")
  {
    SplitSnoc(v, "", '.');
    assert v + "." == v + ['.'] + "";
    ParseEachSnoc(Split(v, '.'), "");
    AllSomeSnoc(ParseEach(Split(v, '.')), ParseInt(""));
  }

  /** One release asset: its name and download address, either of which
      may be missing from the reply. */
  datatype Asset = Asset(name: Option<string>, url: Option<string>)

  /** The reply for the latest release: unreachable or unreadable, or the
      release's tag, notes and assets. */
  datatype ReleaseReply = ReplyFailed | Release(tag: string, notes: string, assets: seq<Asset>)

  /** How the asset scan ends: with the first `.exe` asset's address, with
      none found, or with a `KeyError` on an asset without a name, or on an
      `.exe` asset without an address. */
  datatype AssetScan = ExeFound(url: string) | NoExe | MissingKey

  predicate IsExe(a: Asset) {
    a.name.Some? && EndsWith(a.name.value, ".exe")
  }

  /** The scan of `assets` from the front, stopping at the first `.exe`. */
  function ScanAssets(assets: seq<Asset>): AssetScan {
    if |assets| == 0 then NoExe
    else if assets[0].name.None? then MissingKey
    else if IsExe(assets[0]) then
      if assets[0].url.None? then MissingKey else ExeFound(assets[0].url.value)
    else ScanAssets(assets[1..])
  }

  /** The address found is that of the first `.exe` asset, every asset
      before it having a name; none is found exactly when every asset has a
      name and none is an `.exe`. */
  lemma {:induction false} ScanAssetsFindsFirstExe(assets: seq<Asset>)
    ensures var r := ScanAssets(assets);
            r.ExeFound? ==>
              exists i :: 0 <= i < |assets| && IsExe(assets[i]) && assets[i].url == Some(r.url)
                          && forall j :: 0 <= j < i ==> assets[j].name.Some? && !IsExe(assets[j])
    ensures ScanAssets(assets) == NoExe <==>
              forall i :: 0 <= i < |assets| ==> assets[i].name.Some? && !IsExe(assets[i])
  {
    if |assets| > 0 && assets[0].name.Some? && !IsExe(assets[0]) {
      var tail := assets[1..];
      ScanAssetsFindsFirstExe(tail);
      var r := ScanAssets(tail);
      if r.ExeFound? {
        var i :| 0 <= i < |tail| && IsExe(tail[i]) && tail[i].url == Some(r.url)
                 && forall j :: 0 <= j < i ==> tail[j].name.Some? && !IsExe(tail[j]);
        assert IsExe(assets[i + 1]) && assets[i + 1].url == Some(r.url);
        forall j | 0 <= j < i + 1 ensures assets[j].name.Some? && !IsExe(assets[j]) {
          if j > 0 { assert assets[j] == tail[j - 1]; }
        }
      }
      if forall i :: 0 <= i < |assets| ==> assets[i].name.Some? && !IsExe(assets[i]) {
        forall i | 0 <= i < |tail| ensures tail[i].name.Some? && !IsExe(tail[i]) {
          assert tail[i] == assets[i + 1];
        }
      }
      if r == NoExe {
        forall i | 0 <= i < |assets| ensures assets[i].name.Some? && !IsExe(assets[i]) {
          if i > 0 { assert assets[i] == tail[i - 1]; }
        }
      }
    }
  }

  class AutoUpdater {
    var latestVersion: Option<string>
    var downloadUrl: Option<string>
    var releaseNotes: string

    constructor()
      ensures latestVersion == None && downloadUrl == None && releaseNotes == ""
    {
      latestVersion := None;
      downloadUrl := None;
      releaseNotes := "";
    }

    /** `_compare_versions`: parse both, pad the shorter list with zeros in
        place, and compare. */
    method CompareVersions(current: string, latest: string) returns (r: bool)
      ensures r == Newer(current, latest)
    {
      var c := ParseVersion(current);
      var l := ParseVersion(latest);
      if c.None? || l.None? {
        return false;
      }
      var cp, lp := PadPair(c.value, l.value);
      r := ListGreater(lp, cp);
    }

    /** The two `while` loops of `_compare_versions`: append zeros to the
        shorter list until the lengths agree. */
    static method PadPair(cv: seq<int>, lv: seq<int>) returns (cp: seq<int>, lp: seq<int>)
      ensures cp == Pad(cv, Max(|cv|, |lv|)) && lp == Pad(lv, Max(|cv|, |lv|))
    {
      var n := Max(|cv|, |lv|);
      cp, lp := cv, lv;
      while |cp| < |lp|
        invariant |cv| <= |cp| <= n
        invariant cp == cv + Zeros(|cp| - |cv|)
        invariant lp == lv
        decreases |lp| - |cp|
      {
        ZerosSnoc(cv, |cp| - |cv|);
        cp := cp + [0];
      }
      while |lp| < |cp|
        invariant |lv| <= |lp| <= |cp|
        invariant lp == lv + Zeros(|lp| - |lv|)
        decreases |cp| - |lp|
      {
        ZerosSnoc(lv, |lp| - |lv|);
        lp := lp + [0];
      }
      PaddedBoth(cv, lv, cp, lp);
    }

    /** `_fetch_latest_release` for the running version `version`: a failed
        request reports no update; otherwise the tag (leading "v"s dropped)
        and notes are kept, the first `.exe` asset's address is kept, and
        the tag is compared with `version`. A missing asset key raises, is
        caught, and reports no update after the tag and notes were kept. */
    method FetchLatestRelease(version: string, reply: ReleaseReply)
      returns (hasUpdate: bool, shown: string, notes: string)
      modifies this
      ensures reply.ReplyFailed? ==>
                && (hasUpdate, shown, notes) == (false, version, "")
                && latestVersion == old(latestVersion) && downloadUrl == old(downloadUrl)
                && releaseNotes == old(releaseNotes)
      ensures reply.Release? ==>
                var scan := ScanAssets(reply.assets);
                && latestVersion == Some(LStripChar(reply.tag, 'v'))
                && releaseNotes == reply.notes
                && downloadUrl == (if scan.ExeFound? then Some(scan.url) else old(downloadUrl))
                && (hasUpdate, shown, notes)
                   == if scan == MissingKey then (false, version, "")
                      else (Newer(version, LStripChar(reply.tag, 'v')), LStripChar(reply.tag, 'v'), reply.notes)
    {
      if reply.ReplyFailed? {
        return false, version, "";
      }
      var tag := LStripChar(reply.tag, 'v');
      latestVersion := Some(tag);
      releaseNotes := reply.notes;
      var assets := reply.assets;
      var i := 0;
      while i < |assets|
        invariant 0 <= i <= |assets|
        invariant ScanAssets(assets) == ScanAssets(assets[i..])
        invariant downloadUrl == old(downloadUrl)
        invariant latestVersion == Some(tag) && releaseNotes == reply.notes
      {
        var a := assets[i];
        assert assets[i..][1..] == assets[i + 1..];
        if a.name.None? {
          return false, version, "";
        }
        if EndsWith(a.name.value, ".exe") {
          if a.url.None? {
            return false, version, "";
          }
          downloadUrl := Some(a.url.value);
          break;
        }
        i := i + 1;
      }
      hasUpdate := CompareVersions(version, tag);
      shown, notes := tag, reply.notes;
    }
  }
}
