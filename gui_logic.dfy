/** The logic inside the desktop window that does not touch a widget: the
    target list parser, the checks that stop a send from starting, the
    account status classification, the log line of one send and the
    completion tallies. */
module GuiLogic {
  import opened Text
  import opened Protocol

  /** `t[1:]` when `t` starts with "@". */
  function DropAt(t: string): (r: string)
    ensures StartsWith(t, "@") ==> "@" + r == t
    ensures !StartsWith(t, "@") ==> r == t
  {
    if |t| > 0 && t[0] == '@' then
      assert t == "@" + t[1..];
      t[1..]
    else t
  }

  /** The target one line contributes: none for a blank line, else the
      trimmed line minus one leading "@". */
  function LineTarget(line: string): seq<string> {
    var t := Strip(line);
    if t == "" then [] else [DropAt(t)]
  }

  /** The targets of `lines`, in order. */
  function TargetsOf(lines: seq<string>): (r: seq<string>)
    ensures |r| <= |lines|
  {
    if |lines| == 0 then [] else LineTarget(lines[0]) + TargetsOf(lines[1..])
  }

  /** The targets typed into the target box: the text is trimmed and cut
      at line breaks, and each line is read on its own. */
  function ParseTargets(text: string): seq<string> {
    TargetsOf(Split(Strip(text), '\n'))
  }

  /** Parsing is line by line: the targets of two blocks of lines are the
      targets of the first followed by those of the second. */
  lemma {:induction false} TargetsOfAppend(a: seq<string>, b: seq<string>)
    ensures TargetsOf(a + b) == TargetsOf(a) + TargetsOf(b)
  {
    if |a| == 0 {
      assert a + b == b;
    } else {
      assert (a + b)[1..] == a[1..] + b;
      TargetsOfAppend(a[1..], b);
    }
  }

  /** Every target comes from a non-blank line, trimmed and with at most
      one "@" removed. */
  lemma {:induction false} TargetsFromLines(lines: seq<string>)
    ensures forall t :: t in TargetsOf(lines) ==>
              exists i :: 0 <= i < |lines| && Strip(lines[i]) != "" && DropAt(Strip(lines[i])) == t
  {
    if |lines| > 0 {
      TargetsFromLines(lines[1..]);
      forall t | t in TargetsOf(lines)
        ensures exists i :: 0 <= i < |lines| && Strip(lines[i]) != "" && DropAt(Strip(lines[i])) == t
      {
        if t in LineTarget(lines[0]) {
          assert Strip(lines[0]) != "" && DropAt(Strip(lines[0])) == t;
        } else {
          assert t in TargetsOf(lines[1..]);
          var i :| 0 <= i < |lines[1..]| && Strip(lines[1..][i]) != "" && DropAt(Strip(lines[1..][i])) == t;
          assert lines[i + 1] == lines[1..][i];
        }
      }
    }
  }

  /** A line that is not blank always yields a target. */
  lemma {:induction false} NonBlankLineYieldsTarget(lines: seq<string>, i: nat)
    requires i < |lines| && LineTarget(lines[i]) != []
    ensures LineTarget(lines[i])[0] in TargetsOf(lines)
    decreases i
  {
    if i > 0 {
      assert lines[1..][i - 1] == lines[i];
      NonBlankLineYieldsTarget(lines[1..], i - 1);
    }
  }

  /** Text that is not blank always yields at least one target, so the
      warning for a target list that parses to nothing can never be shown. */
  lemma ParseTargetsNonEmpty(text: string)
    requires Strip(text) != ""
    ensures |ParseTargets(text)| >= 1
  {
    var s := Strip(text);
    var parts := Split(s, '\n');
    assert !IsSpace(s[0]);
    if |parts| > 1 {
      assert s == parts[0] + ['\n'] + Join(parts[1..], '\n');
    }
    assert |parts[0]| > 0 && parts[0][0] == s[0];
    StripEmptyIsBlank(parts[0]);
    assert LineTarget(parts[0]) != [];
  }

  const NoAccountWarning := "请先选择要使用的账号"
  const NoTargetWarning := "请输入发送目标"
  const InvalidTargetWarning := "请输入有效的发送目标"
  const NoContentWarning := "请输入消息内容或选择语音文件"

  function MissingVoiceWarning(path: string): string {
    "语音文件不存在: " + path
  }

  /** What pressing "send" leads to: a warning and no send, or a send of
      `message` (or of the voice file at `voicePath`, "" for none) to
      `targets`, spread over `accounts`. */
  datatype Start =
    | Warn(text: string)
    | Go(accounts: seq<string>, targets: seq<string>, message: string, voicePath: string)

  /** The checks made before a send starts, in their order; `voiceExists`
      says whether a file exists at `voicePath`. */
  function StartSend(selected: seq<string>, targetText: string, messageText: string,
                     voicePath: string, voiceExists: bool): (r: Start)
    ensures r.Go? <==>
              && |selected| > 0
              && Strip(targetText) != "" && ParseTargets(targetText) != []
              && (Strip(messageText) != "" || voicePath != "")
              && (voicePath == "" || voiceExists)
    ensures r.Go? ==> r == Go(selected, ParseTargets(targetText), Strip(messageText), voicePath)
    ensures |selected| == 0 ==> r == Warn(NoAccountWarning)
    ensures |selected| > 0 && Strip(targetText) == "" ==> r == Warn(NoTargetWarning)
    ensures |selected| > 0 && Strip(targetText) != "" && ParseTargets(targetText) == [] ==>
              r == Warn(InvalidTargetWarning)
    ensures |selected| > 0 && Strip(targetText) != "" && ParseTargets(targetText) != []
            && Strip(messageText) == "" && voicePath == "" ==>
              r == Warn(NoContentWarning)
    ensures |selected| > 0 && Strip(targetText) != "" && ParseTargets(targetText) != []
            && voicePath != "" && !voiceExists ==>
              r == Warn(MissingVoiceWarning(voicePath))
  {
    if |selected| == 0 then Warn(NoAccountWarning)
    else if Strip(targetText) == "" then Warn(NoTargetWarning)
    else
      var targets := ParseTargets(targetText);
      if targets == [] then Warn(InvalidTargetWarning)
      else if Strip(messageText) == "" && voicePath == "" then Warn(NoContentWarning)
      else if voicePath != "" && !voiceExists then Warn(MissingVoiceWarning(voicePath))
      else Go(selected, targets, Strip(messageText), voicePath)
  }

  /** The warning about an invalid target list is unreachable, and a send
      that starts always has an account and a target. */
  lemma StartSendNeverInvalid(selected: seq<string>, targetText: string, messageText: string,
                              voicePath: string, voiceExists: bool)
    ensures StartSend(selected, targetText, messageText, voicePath, voiceExists) != Warn(InvalidTargetWarning)
    ensures var r := StartSend(selected, targetText, messageText, voicePath, voiceExists);
            r.Go? ==> |r.accounts| > 0 && |r.targets| > 0
  {
    if |selected| > 0 && Strip(targetText) != "" {
      ParseTargetsNonEmpty(targetText);
    }
    assert NoAccountWarning[1] != InvalidTargetWarning[1];
    assert NoTargetWarning[3] != InvalidTargetWarning[3];
    assert NoContentWarning[3] != InvalidTargetWarning[3];
    assert MissingVoiceWarning(voicePath)[0] != InvalidTargetWarning[0];
  }

  /** The state shown on an account card. */
  datatype AccountStatus = Unknown | Checking | Online | Restricted | Frozen | Offline

  predicate Banned(lowered: string) {
    Contains(lowered, "banned") || Contains(lowered, "deactivated")
  }

  /** The status for an error raised by the dialog-list probe. */
  function ProbeErrorStatus(text: string): (s: AccountStatus)
    ensures s == Restricted || s == Frozen
    ensures s == Frozen <==> !Contains(Lower(text), "flood") && Banned(Lower(text))
  {
    var l := Lower(text);
    if Contains(l, "flood") then Restricted
    else if Banned(l) then Frozen
    else Restricted
  }

  /** The status for an error raised while getting the client or the
      profile. */
  function OuterErrorStatus(text: string): (s: AccountStatus)
    ensures s == Restricted || s == Frozen || s == Offline
    ensures s == Frozen <==> Banned(Lower(text))
    ensures s == Offline <==> !Banned(Lower(text)) && Contains(Lower(text), "auth")
    ensures s == Restricted <==> !Banned(Lower(text)) && !Contains(Lower(text), "auth")
  {
    var l := Lower(text);
    if Banned(l) then Frozen
    else if Contains(l, "auth") then Offline
    else Restricted
  }

  /** The words are looked for in lower-cased text, so the case of the
      error text does not matter. */
  lemma ErrorStatusIgnoresCase(text: string)
    ensures ProbeErrorStatus(Lower(text)) == ProbeErrorStatus(text)
    ensures OuterErrorStatus(Lower(text)) == OuterErrorStatus(text)
  {
    LowerIdempotent(text);
  }

  /** "flood" is looked at first in a probe error, and a ban first in any
      other error. */
  lemma ErrorStatusPriority(text: string)
    requires Contains(Lower(text), "flood") && Banned(Lower(text))
    ensures ProbeErrorStatus(text) == Restricted
    ensures OuterErrorStatus(text) == Frozen
  {
  }

  /** What `get_me()` gives: a profile, nothing, or an exception with its
      text. */
  datatype MeCheck = MeFound | MeEmpty | MeRaised(text: string)

  /** How a call ends: normally, or with an exception whose text is given. */
  datatype Attempted = Succeeded | FailedWith(text: string)

  /** What the outside world does while one account is checked: the probe
      for `get_client`, the text of the exception `connect()` raises when it
      raises, `get_me()`, and the dialog-list probe. */
  datatype CheckScript = CheckScript(probe: ClientProbe, lookupText: string, me: MeCheck, dialogs: Attempted)

  /** The status of one account once `get_client` has given `lookup`. */
  function CheckStatus(lookup: Lookup, sc: CheckScript): (s: AccountStatus)
    ensures s != Unknown && s != Checking
    ensures s == Online <==> lookup.Hit? && sc.me == MeFound && sc.dialogs == Succeeded
    ensures lookup.Miss? || (lookup.Hit? && sc.me == MeEmpty) ==> s == Offline
    // An exception of get_client or get_me goes to the outer handler, one of
    // the dialog probe to the inner one.
    ensures lookup.LookupRaised? ==> s == OuterErrorStatus(sc.lookupText)
    ensures lookup.Hit? && sc.me.MeRaised? ==> s == OuterErrorStatus(sc.me.text)
    ensures lookup.Hit? && sc.me == MeFound && sc.dialogs.FailedWith? ==> s == ProbeErrorStatus(sc.dialogs.text)
  {
    match lookup
    case LookupRaised(_) => OuterErrorStatus(sc.lookupText)
    case Miss => Offline
    case Hit(_) =>
      match sc.me
      case MeRaised(t) => OuterErrorStatus(t)
      case MeEmpty => Offline
      case MeFound =>
        match sc.dialogs
        case Succeeded => Online
        case FailedWith(t) => ProbeErrorStatus(t)
  }

  /** An account is shown frozen only when some error text named a ban. */
  lemma FrozenOnlyOnBan(lookup: Lookup, sc: CheckScript)
    requires CheckStatus(lookup, sc) == Frozen
    ensures || (lookup.LookupRaised? && Banned(Lower(sc.lookupText)))
            || (sc.me.MeRaised? && Banned(Lower(sc.me.text)))
            || (sc.dialogs.FailedWith? && Banned(Lower(sc.dialogs.text)))
  {
  }

  /** The log line of one send. */
  function LogLine(name: string, target: string, success: bool, msg: string): (r: string)
  {
    "[" + name + "] → @" + target + ": " + (if success then "成功" else "失败")
      + (if !success && msg != "" then " (" + msg + ")" else "")
  }

  function LogPrefix(name: string, target: string): string {
    "[" + name + "] → @" + target + ": "
  }

  /** A log line names the account and the target, tells success from
      failure by the word after them, and carries the error message exactly
      when a failure has one. */
  lemma LogLineShape(name: string, target: string, success: bool, msg: string)
    ensures var r := LogLine(name, target, success, msg);
            var n := |LogPrefix(name, target)|;
            && StartsWith(r, LogPrefix(name, target))
            && |r| >= n + 2
            && (r[n] == '成' <==> success)
            && (|r| > n + 2 <==> !success && msg != "")
  {
    var r := LogLine(name, target, success, msg);
    var n := |LogPrefix(name, target)|;
    assert r[..n] == LogPrefix(name, target);
  }

  function CountTrue(s: seq<bool>): nat {
    if |s| == 0 then 0 else (if s[0] then 1 else 0) + CountTrue(s[1..])
  }

  function CountFalse(s: seq<bool>): nat {
    if |s| == 0 then 0 else (if s[0] then 0 else 1) + CountFalse(s[1..])
  }

  lemma {:induction false} CountSplit(s: seq<bool>)
    ensures CountTrue(s) + CountFalse(s) == |s|
  {
    if |s| > 0 {
      CountSplit(s[1..]);
    }
  }

  /** The successes and failures counted on completion: the failures are
      computed as the rest, and they are exactly the results that failed. */
  function Tally(oks: seq<bool>): (r: (nat, nat))
    ensures r.0 == CountTrue(oks) && r.1 == CountFalse(oks)
    ensures r.0 + r.1 == |oks|
  {
    CountSplit(oks);
    (CountTrue(oks), |oks| - CountTrue(oks))
  }

  /** The summary line when a send run completes. */
  function SendSummary(oks: seq<bool>): string {
    var (success, fail) := Tally(oks);
    "发送完成: 成功 " + NatToString(success) + ", 失败 " + NatToString(fail)
  }

  /** The summary line when a tdata import completes. */
  function ImportSummary(oks: seq<bool>): string {
    var (success, fail) := Tally(oks);
    "导入完成: 成功 " + NatToString(success) + ", 失败 " + NatToString(fail)
  }

  /** How many check results carry `status`. */
  function CountStatus(results: seq<(string, AccountStatus)>, status: AccountStatus): nat {
    if |results| == 0 then 0
    else (if results[0].1 == status then 1 else 0) + CountStatus(results[1..], status)
  }

  /** The online and restricted counts shown after a check never add up to
      more than the accounts checked, and only reach it when every account
      is in one of those two states. */
  lemma {:induction false} StatusCountsBounded(results: seq<(string, AccountStatus)>)
    ensures CountStatus(results, Online) + CountStatus(results, Restricted) <= |results|
    ensures CountStatus(results, Online) + CountStatus(results, Restricted) == |results| <==>
              forall i :: 0 <= i < |results| ==> results[i].1 == Online || results[i].1 == Restricted
  {
    if |results| > 0 {
      StatusCountsBounded(results[1..]);
      if forall i :: 0 <= i < |results[1..]| ==> results[1..][i].1 == Online || results[1..][i].1 == Restricted {
        if results[0].1 == Online || results[0].1 == Restricted {
          forall i | 0 <= i < |results| ensures results[i].1 == Online || results[i].1 == Restricted {
            if i > 0 { assert results[i] == results[1..][i - 1]; }
          }
        }
      } else {
        var i :| 0 <= i < |results[1..]| && !(results[1..][i].1 == Online || results[1..][i].1 == Restricted);
        assert results[i + 1] == results[1..][i];
      }
    }
  }

  /** The summary line when a status check completes. */
  function StatusSummary(results: seq<(string, AccountStatus)>): string {
    "状态检测完成: 正常 " + NatToString(CountStatus(results, Online))
      + ", 受限 " + NatToString(CountStatus(results, Restricted))
  }
}
