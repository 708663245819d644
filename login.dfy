/** The decision logic of `AccountManager.login_account`: which external
    calls are made, in which order, and how the attempt ends. The changes
    to the account store are made by `Manager.AccountManager.LoginAccount`
    from the run computed here. */
module Login {
  import opened Text
  import opened Protocol
  import opened Accounts
  import Scanner

  /** How `sign_in(phone, code)` ends. */
  datatype SignIn = SignedIn | PasswordNeeded | SignInRaised(error: ProtoError)

  /** Every answer the outside world gives during one login attempt. */
  datatype LoginScript = LoginScript(
    connect: Step,             // client.connect()
    authorized: Reply<bool>,   // client.is_user_authorized()
    me: Reply<Me>,             // client.get_me(), on whichever path reaches it
    sendCode: Step,            // client.send_code_request(phone)
    codePage: Fetch,           // the page fetched for the code
    codeInput: string,         // the line typed at the code prompt
    signIn: SignIn,            // client.sign_in(phone, code)
    passwordPage: Fetch,       // the page fetched for the 2FA password
    passwordInput: string,     // the line typed at the password prompt
    passwordSignIn: Step)      // client.sign_in(password=...)

  /** The external calls, in the order they are made. */
  datatype Call =
    | Connect | CheckAuthorized | GetMe | SendCode
    | FetchCodePage | PromptCode | SubmitCode(code: string)
    | FetchPasswordPage | PromptPassword | SubmitPassword(password: string)

  /** Why an attempt failed. */
  datatype Failure = Protocol(error: ProtoError) | CodeFetchFailed(reason: string) | NoCode

  /** The message `login_account` returns for a failure. */
  function FailureMessage(f: Failure): string
  {
    match f
    case Protocol(FloodWait(seconds)) => "请求过于频繁，需等待 " + NatToString(seconds) + " 秒"
    case Protocol(CodeExpired) => "验证码已过期"
    case Protocol(CodeInvalid) => "验证码无效"
    case Protocol(Other(text)) => "登录失败: " + text
    case CodeFetchFailed(reason) => "获取验证码失败: " + reason
    case NoCode => "未提供验证码"
  }

  /** Each failure reason is reported with its own message: the message
      determines the failure, flood-wait seconds included. */
  lemma {:induction false} FailureMessageInjective(f: Failure, g: Failure)
    requires FailureMessage(f) == FailureMessage(g)
    ensures f == g
  {
    var m := FailureMessage(f);
    if f.Protocol? && f.error.FloodWait? && g.Protocol? && g.error.FloodWait? {
      var pre := "请求过于频繁，需等待 ";
      var a, b := NatToString(f.error.seconds), NatToString(g.error.seconds);
      assert m == pre + a + " 秒" == pre + b + " 秒";
      assert |a| == |b|;
      assert a == m[|pre|..|pre| + |a|] == b;
      NatToStringInjective(f.error.seconds, g.error.seconds);
    } else if f.Protocol? && f.error.Other? && g.Protocol? && g.error.Other? {
      assert f.error.text == m[|"登录失败: "|..] == g.error.text;
    } else if f.CodeFetchFailed? && g.CodeFetchFailed? {
      assert f.reason == m[|"获取验证码失败: "|..] == g.reason;
    } else {
      assert m[0] == FailureMessage(g)[0];
      if |m| > 2 { assert m[2] == FailureMessage(g)[2]; }
    }
  }

  /** The outcome of one attempt: success with the profile read by
      `get_me()`, or failure; and the calls made. */
  datatype LoginRun = LoginRun(outcome: Outcome, calls: seq<Call>) {
    predicate Ok() { outcome.Success? }
  }

  datatype Outcome = Success(me: Me, alreadyAuthorized: bool) | Failed(failure: Failure)

  /** The code used: the manual code when one is given, else the fetched
      code when the account has a URL (a fetch error ends the attempt),
      else the line typed at the prompt, trimmed. */
  function ResolveCode(manualCode: string, apiUrl: string, fetched: Scanner.Fetched, input: string)
    : (r: (string, string, seq<Call>))
    ensures manualCode != "" ==> r == (manualCode, "", [])
    ensures manualCode == "" && apiUrl != "" ==>
              r == (fetched.value, fetched.error, [FetchCodePage])
    ensures manualCode == "" && apiUrl == "" ==> r == (Strip(input), "", [PromptCode])
    ensures forall c :: c in r.2 ==> c == FetchCodePage || c == PromptCode
  {
    if manualCode != "" then (manualCode, "", [])
    else if apiUrl != "" then
      (fetched.value, fetched.error, [FetchCodePage])
    else (Strip(input), "", [PromptCode])
  }

  /** The 2FA password used: the manual one, else the fetched one, falling
      back to the prompt when the fetch fails or finds nothing. */
  function ResolvePassword(manual2fa: string, apiUrl: string, fetched: Scanner.Fetched, input: string)
    : (r: (string, seq<Call>))
    ensures manual2fa != "" ==> r == (manual2fa, [])
    ensures manual2fa == "" && apiUrl != "" ==>
              if fetched.error == "" && fetched.value != "" then r == (fetched.value, [FetchPasswordPage])
              else r == (Strip(input), [FetchPasswordPage, PromptPassword])
    ensures manual2fa == "" && apiUrl == "" ==> r == (Strip(input), [PromptPassword])
    ensures forall k :: 0 <= k < |r.1| ==> r.1[k] == FetchPasswordPage || r.1[k] == PromptPassword
  {
    if manual2fa != "" then (manual2fa, [])
    else if apiUrl != "" then
      if fetched.error != "" || fetched.value == "" then (Strip(input), [FetchPasswordPage, PromptPassword])
      else (fetched.value, [FetchPasswordPage])
    else (Strip(input), [PromptPassword])
  }

  /** The session is not authorised and the code request went through. */
  predicate CodeRequested(s: LoginScript) {
    s.connect.Done? && s.authorized == Returns(false) && s.sendCode.Done?
  }

  /** One login attempt for an account whose record carries `apiUrl`. */
  function Run(apiUrl: string, manualCode: string, manual2fa: string, s: LoginScript): (r: LoginRun)
    ensures |r.calls| > 0 && r.calls[0] == Connect
    ensures r.Ok() ==> s.me.Returns? && r.calls[|r.calls| - 1] == GetMe
    // An authorised session succeeds or fails on get_me, before any code is requested.
    ensures s.connect.Done? && s.authorized == Returns(true) ==>
              r.calls == [Connect, CheckAuthorized, GetMe]
              && (r.Ok() <==> s.me.Returns?) && (r.Ok() ==> r.outcome.alreadyAuthorized)
    // A code is requested exactly when the session is connected and not authorised.
    ensures SendCode in r.calls <==> s.connect.Done? && s.authorized == Returns(false)
    ensures CodeRequested(s) ==>
              var c := CodeStage(apiUrl, manualCode, manual2fa, Scanner.FetchCode(s.codePage),
                                 Scanner.FetchPassword(s.passwordPage), s);
              r.calls == [Connect, CheckAuthorized, SendCode] + c.calls && r.outcome == c.outcome
    ensures r.Ok() && !r.outcome.alreadyAuthorized ==> CodeRequested(s)
    // A call that raises ends the attempt with that error, after that call.
    ensures s.connect.Raised? ==> r == LoginRun(Failed(Protocol(s.connect.error)), [Connect])
    ensures s.connect.Done? && s.authorized.Throws? ==>
              r == LoginRun(Failed(Protocol(s.authorized.error)), [Connect, CheckAuthorized])
    ensures s.connect.Done? && s.authorized == Returns(false) && s.sendCode.Raised? ==>
              r == LoginRun(Failed(Protocol(s.sendCode.error)), [Connect, CheckAuthorized, SendCode])
    ensures s.connect.Done? && s.authorized == Returns(true) ==>
              r == Finish(s.me, [Connect, CheckAuthorized], true)
  {
    if s.connect.Raised? then LoginRun(Failed(Protocol(s.connect.error)), [Connect])
    else if s.authorized.Throws? then LoginRun(Failed(Protocol(s.authorized.error)), [Connect, CheckAuthorized])
    else if s.authorized.value then
      Finish(s.me, [Connect, CheckAuthorized], true)
    else if s.sendCode.Raised? then
      LoginRun(Failed(Protocol(s.sendCode.error)), [Connect, CheckAuthorized, SendCode])
    else
      var c := CodeStage(apiUrl, manualCode, manual2fa, Scanner.FetchCode(s.codePage),
                         Scanner.FetchPassword(s.passwordPage), s);
      LoginRun(c.outcome, [Connect, CheckAuthorized, SendCode] + c.calls)
  }

  /** What follows a successful code request: obtain the code (`codePage`
      is what the code URL yielded), then sign in with it. */
  function CodeStage(apiUrl: string, manualCode: string, manual2fa: string,
                     codePage: Scanner.Fetched, passwordPage: Scanner.Fetched, s: LoginScript): (r: LoginRun)
    ensures SendCode !in r.calls && Connect !in r.calls && CheckAuthorized !in r.calls
    ensures r.Ok() ==> s.me.Returns? && |r.calls| > 0 && r.calls[|r.calls| - 1] == GetMe
    ensures r.Ok() ==> !r.outcome.alreadyAuthorized
    // The code ResolveCode chose: a fetch error or an empty code ends the
    // attempt; otherwise the attempt ends as the sign-in with it does.
    ensures var (code, error, codeCalls) := ResolveCode(manualCode, apiUrl, codePage, s.codeInput);
            && (error != "" ==> r == LoginRun(Failed(CodeFetchFailed(error)), codeCalls))
            && (error == "" && code == "" ==> r == LoginRun(Failed(NoCode), codeCalls))
            && (error == "" && code != "" ==>
                  var t := SignInStage(code, apiUrl, manual2fa, passwordPage, s);
                  r == LoginRun(t.outcome, codeCalls + t.calls))
  {
    var (code, error, codeCalls) := ResolveCode(manualCode, apiUrl, codePage, s.codeInput);
    if error != "" then LoginRun(Failed(CodeFetchFailed(error)), codeCalls)
    else if code == "" then LoginRun(Failed(NoCode), codeCalls)
    else
      var t := SignInStage(code, apiUrl, manual2fa, passwordPage, s);
      LoginRun(t.outcome, codeCalls + t.calls)
  }

  /** Where the code comes from: the manual code, then the URL, then the
      prompt; a failed fetch or an empty code ends the attempt before
      sign-in. */
  lemma CodeSourcePriority(apiUrl: string, manualCode: string, manual2fa: string,
                           codePage: Scanner.Fetched, passwordPage: Scanner.Fetched, s: LoginScript)
    ensures var r := CodeStage(apiUrl, manualCode, manual2fa, codePage, passwordPage, s);
            && (manualCode != "" ==>
                  FetchCodePage !in r.calls && PromptCode !in r.calls
                  && forall c :: SubmitCode(c) in r.calls ==> c == manualCode)
            && (manualCode == "" && apiUrl != "" ==> PromptCode !in r.calls)
            && (manualCode == "" && apiUrl != "" && codePage.error != "" ==>
                  r == LoginRun(Failed(CodeFetchFailed(codePage.error)), [FetchCodePage]))
            && (manualCode == "" && apiUrl == "" && Strip(s.codeInput) == "" ==>
                  r == LoginRun(Failed(NoCode), [PromptCode]))
  {
    CodeStageSubmitsResolvedCode(apiUrl, manualCode, manual2fa, codePage, passwordPage, s);
  }

  /** The code sent to `sign_in` is the one ResolveCode chose, and it is
      never empty; it is sent only when nothing went wrong obtaining it. */
  lemma CodeStageSubmitsResolvedCode(apiUrl: string, manualCode: string, manual2fa: string,
                                     codePage: Scanner.Fetched, passwordPage: Scanner.Fetched, s: LoginScript)
    ensures var (code, error, _) := ResolveCode(manualCode, apiUrl, codePage, s.codeInput);
            var r := CodeStage(apiUrl, manualCode, manual2fa, codePage, passwordPage, s);
            (forall c :: SubmitCode(c) in r.calls ==> c == code && c != "")
            && ((exists c :: SubmitCode(c) in r.calls) <==> error == "" && code != "")
  {
    var (code, error, codeCalls) := ResolveCode(manualCode, apiUrl, codePage, s.codeInput);
    var r := CodeStage(apiUrl, manualCode, manual2fa, codePage, passwordPage, s);
    if error == "" && code != "" {
      var t := SignInStage(code, apiUrl, manual2fa, passwordPage, s);
      assert r.calls == codeCalls + t.calls;
      assert SubmitCode(code) in r.calls by { assert r.calls[|codeCalls|] == SubmitCode(code); }
    }
  }

  /** The calls that can follow `sign_in(phone, code)`. */
  predicate AfterSignIn(c: Call) {
    c.FetchPasswordPage? || c.PromptPassword? || c.SubmitPassword? || c.GetMe?
  }

  /** `sign_in` with the code, the 2FA challenge if one comes (`passwordPage`
      is what the password URL yielded), and the closing `get_me()`. */
  function SignInStage(code: string, apiUrl: string, manual2fa: string,
                       passwordPage: Scanner.Fetched, s: LoginScript): (r: LoginRun)
    ensures |r.calls| > 0 && r.calls[0] == SubmitCode(code)
    ensures forall c :: c in r.calls ==> c == SubmitCode(code) || AfterSignIn(c)
    ensures r.Ok() ==> s.me.Returns? && r.calls[|r.calls| - 1] == GetMe && !r.outcome.alreadyAuthorized
    // A 2FA challenge is answered with the password ResolvePassword chooses.
    ensures s.signIn == PasswordNeeded ==>
              var (password, passwordCalls) := ResolvePassword(manual2fa, apiUrl, passwordPage, s.passwordInput);
              |r.calls| >= 2 + |passwordCalls|
              && r.calls[..2 + |passwordCalls|] == [SubmitCode(code)] + passwordCalls + [SubmitPassword(password)]
    // Without a 2FA challenge no password is asked for or sent.
    ensures s.signIn != PasswordNeeded ==>
              forall c :: c in r.calls ==> c == SubmitCode(code) || c == GetMe
    // How the attempt ends: the error of the sign-in that raised, else get_me().
    ensures s.signIn.SignInRaised? ==> r == LoginRun(Failed(Protocol(s.signIn.error)), [SubmitCode(code)])
    ensures s.signIn == SignedIn ==> r == Finish(s.me, [SubmitCode(code)], false)
    ensures s.signIn == PasswordNeeded && s.passwordSignIn.Raised? ==>
              r.outcome == Failed(Protocol(s.passwordSignIn.error))
    ensures s.signIn == PasswordNeeded && s.passwordSignIn.Done? ==>
              r.outcome == Finish(s.me, [], false).outcome
  {
    var submitted := [SubmitCode(code)];
    match s.signIn
    case SignInRaised(e) => LoginRun(Failed(Protocol(e)), submitted)
    case SignedIn => Finish(s.me, submitted, false)
    case PasswordNeeded =>
      var (password, passwordCalls) := ResolvePassword(manual2fa, apiUrl, passwordPage, s.passwordInput);
      var all := submitted + passwordCalls + [SubmitPassword(password)];
      if s.passwordSignIn.Raised? then LoginRun(Failed(Protocol(s.passwordSignIn.error)), all)
      else Finish(s.me, all, false)
  }

  /** The closing `get_me()`. */
  function Finish(me: Reply<Me>, calls: seq<Call>, alreadyAuthorized: bool): (r: LoginRun)
    ensures r.calls == calls + [GetMe]
    ensures r.Ok() <==> me.Returns?
    ensures me.Returns? ==> r.outcome == Success(me.value, alreadyAuthorized)
    ensures me.Throws? ==> r.outcome == Failed(Protocol(me.error))
  {
    match me
    case Returns(m) => LoginRun(Success(m, alreadyAuthorized), calls + [GetMe])
    case Throws(e) => LoginRun(Failed(Protocol(e)), calls + [GetMe])
  }

  /** The message returned with the outcome; `account` is the record after
      the profile has been written. */
  function Message(o: Outcome, account: TelegramAccount): string
  {
    match o
    case Success(_, true) => "已登录: " + account.name + " (@" + account.username + ")"
    case Success(_, false) => "登录成功: " + account.name + " (@" + account.username + ")"
    case Failed(f) => FailureMessage(f)
  }
}
