/** The desktop window's state and handlers: the account cards and the set
    of selected accounts, deletion and reloading, the status check loop
    and the round-robin send loop. Widgets, colours and the log box are
    not modelled; the texts the handlers would show are returned. */
module Gui {
  import opened Wrappers
  import opened Text
  import opened Protocol
  import opened Accounts
  import opened Manager
  import opened Dispatch
  import opened GuiLogic

  /** One account's card: which account it shows, whether it is selected
      and the status it displays. */
  class AccountCard {
    const phone: string
    var selected: bool
    var status: AccountStatus

    constructor(phone: string)
      ensures this.phone == phone && !selected && status == Unknown
    {
      this.phone := phone;
      selected := false;
      status := Unknown;
    }

    method ToggleSelect()
      modifies this
      ensures selected == !old(selected) && status == old(status)
    {
      selected := !selected;
    }

    method SetSelected(selected: bool)
      modifies this
      ensures this.selected == selected && status == old(status)
    {
      this.selected := selected;
    }

    method SetStatus(status: AccountStatus)
      modifies this
      ensures this.status == status && selected == old(selected)
    {
      this.status := status;
    }
  }

  /** The text of the selection counter. */
  function SelectedLabel(n: nat): string {
    "已选: " + NatToString(n)
  }

  /** The name a log line shows for `phone`: the account's name when it has
      one, else the phone. */
  function NameFor(accounts: map<string, TelegramAccount>, phone: string): (r: string)
    ensures phone in accounts && accounts[phone].name != "" ==> r == accounts[phone].name
    ensures !(phone in accounts && accounts[phone].name != "") ==> r == phone
    ensures r == "" ==> phone == ""
  {
    if phone in accounts && accounts[phone].name != "" then accounts[phone].name else phone
  }

  /** `s[:n]` */
  function Truncate(s: string, n: nat): (r: string)
    ensures |r| <= n && StartsWith(s, r)
    ensures |r| == if |s| <= n then |s| else n
    ensures |s| <= n ==> r == s
  {
    if |s| <= n then s else s[..n]
  }

  /** What the outside world does for one send: the probe for
      `get_client`, the text of the exception `connect()` raises when it
      raises, and how the send itself ends. */
  datatype SendScript = SendScript(probe: ClientProbe, lookupText: string, delivery: Delivery)

  /** `_send_voice_msg` once the client lookup has given `lookup`: every
      exception is caught and its text cut to 60 characters. */
  function VoiceOutcome(lookup: Lookup, sc: SendScript): (r: (bool, string))
    ensures r.0 <==> lookup.Hit? && sc.delivery.Sent?
    ensures r.0 ==> r.1 == ""
    ensures |r.1| <= 60
  {
    match lookup
    case LookupRaised(_) => (false, Truncate(sc.lookupText, 60))
    case Miss => (false, "无法获取客户端")
    case Hit(_) =>
      match sc.delivery
      case Sent => (true, "")
      case Refused(text) => (false, Truncate(text, 60))
  }

  /** Where `do_check` stands after some keys: the key and status of each
      key checked so far, and the client cache. */
  datatype CheckProgress = CheckProgress(results: seq<(string, AccountStatus)>, clients: map<string, Client>)

  /** One turn of `do_check`'s loop, for the key `k`, which `get_client`
      normalises to `p`: `get_client(k)` against the store `accounts`, the
      status that follows, and the cache the lookup leaves. */
  function CheckTurn(openteleAvailable: bool, accounts: map<string, TelegramAccount>,
                     pr: CheckProgress, k: string, p: string, sc: CheckScript): CheckProgress
  {
    var lookup := LookupFor(openteleAvailable, accounts, pr.clients, p, sc.probe);
    CheckProgress(pr.results + [(k, CheckStatus(lookup, sc))], CacheAfter(openteleAvailable, accounts, pr.clients, p, sc.probe))
  }

  /** `do_check` over the first `n` keys of `keys`, whose normalised forms
      are `phones`, from the cache `clients`; `scripts[i]` is what the
      outside world does for the key `keys[i]`. */
  function CheckPrefix(openteleAvailable: bool, accounts: map<string, TelegramAccount>, clients: map<string, Client>,
                       keys: seq<string>, phones: seq<string>, scripts: seq<CheckScript>, n: nat): CheckProgress
    requires n <= |keys| && n <= |phones| && n <= |scripts|
  {
    if n == 0 then CheckProgress([], clients)
    else CheckTurn(openteleAvailable, accounts, CheckPrefix(openteleAvailable, accounts, clients, keys, phones, scripts, n - 1),
                   keys[n - 1], phones[n - 1], scripts[n - 1])
  }

  /** `do_check` reports once for every key, in key order and under the
      key, and every status it reports is a definite one: a failure on one
      key does not stop the others, and no card is left "unknown" or
      "checking". */
  lemma {:induction false} CheckPrefixResults(openteleAvailable: bool, accounts: map<string, TelegramAccount>,
                                              clients: map<string, Client>, keys: seq<string>, phones: seq<string>,
                                              scripts: seq<CheckScript>, n: nat)
    requires n <= |keys| && n <= |phones| && n <= |scripts|
    ensures var results := CheckPrefix(openteleAvailable, accounts, clients, keys, phones, scripts, n).results;
            && |results| == n
            && forall j :: 0 <= j < n ==> results[j].0 == keys[j] && results[j].1 != Unknown && results[j].1 != Checking
  {
    if n > 0 {
      CheckPrefixResults(openteleAvailable, accounts, clients, keys, phones, scripts, n - 1);
    }
  }

  /** `do_check` only ever adds clients to the cache: every client cached
      before is still cached after. */
  lemma {:induction false} CheckPrefixKeepsClients(openteleAvailable: bool, accounts: map<string, TelegramAccount>,
                                                   clients: map<string, Client>, keys: seq<string>, phones: seq<string>,
                                                   scripts: seq<CheckScript>, n: nat)
    requires n <= |keys| && n <= |phones| && n <= |scripts|
    ensures forall q :: q in clients ==> q in CheckPrefix(openteleAvailable, accounts, clients, keys, phones, scripts, n).clients
  {
    if n > 0 {
      CheckPrefixKeepsClients(openteleAvailable, accounts, clients, keys, phones, scripts, n - 1);
    }
  }

  /** One finished send of the round-robin loop. */
  datatype SendResult = SendResult(phone: string, target: string, success: bool, log: string)

  /** One progress event: sends finished so far, their total, and the last
      send's outcome and log line. */
  datatype ProgressEvent = ProgressEvent(count: nat, total: nat, success: bool, log: string)

  /** The progress events after the results `results`: event `j` counts
      `j + 1` finished sends out of `total` and carries result `j`'s outcome
      and log line. */
  function Events(results: seq<SendResult>, total: nat): (r: seq<ProgressEvent>)
    ensures |r| == |results|
    ensures forall j :: 0 <= j < |results| ==>
              r[j] == ProgressEvent(j + 1, total, results[j].success, results[j].log)
  {
    if |results| == 0 then []
    else
      var n := |results| - 1;
      var front := Events(results[..n], total);
      assert forall j :: 0 <= j < n ==> results[..n][j] == results[j];
      front + [ProgressEvent(n + 1, total, results[n].success, results[n].log)]
  }

  /** The number of pauses after `k` finished sends out of `total`: a pause
      follows every send but the last one of the whole list. */
  function Pauses(k: nat, total: nat): nat {
    if k == total && k > 0 then k - 1 else k
  }

  /** One send of `do_send` from `phone`, whose normalised key is `p`: a
      text through `send_from_account` when there is no voice file, else a
      voice note through `_send_voice_msg`; its outcome and the cache it
      leaves. */
  function SendAttempt(openteleAvailable: bool, accounts: map<string, TelegramAccount>,
                       clients: map<string, Client>, phone: string, p: string, voicePath: string, sc: SendScript)
    : (r: (Reply<(bool, string)>, map<string, Client>))
    ensures r.0.Throws? ==> voicePath == ""
    ensures r.0.Returns? ==>
              (r.0.value.0 <==> LookupFor(openteleAvailable, accounts, clients, p, sc.probe).Hit? && sc.delivery.Sent?)
    ensures r.1 == CacheAfter(openteleAvailable, accounts, clients, p, sc.probe)
  {
    var lookup := LookupFor(openteleAvailable, accounts, clients, p, sc.probe);
    var out := if voicePath == "" then SendOutcome(phone, lookup, sc.delivery) else Returns(VoiceOutcome(lookup, sc));
    (out, CacheAfter(openteleAvailable, accounts, clients, p, sc.probe))
  }

  /** Where `do_send` stands after some turns: the outcome (success and
      message) of each send so far, the client cache, and the exception
      that ended the loop, if one did. */
  datatype SendProgress = SendProgress(outs: seq<(bool, string)>, clients: map<string, Client>, raised: Option<ProtoError>)

  /** The first `n` turns of `do_send`: target `i` is sent from
      `senders[i % |senders|]`, whose normalised key is
      `phones[i % |senders|]`, with the script `scripts[i]`. */
  function SendRound(openteleAvailable: bool, accounts: map<string, TelegramAccount>, clients: map<string, Client>,
                     senders: seq<string>, phones: seq<string>, targets: seq<string>, voicePath: string,
                     scripts: seq<SendScript>, n: nat): SendProgress
    requires 0 < |senders| == |phones| && n <= |targets| && n <= |scripts|
  {
    if n == 0 then SendProgress([], clients, None)
    else
      var pr := SendRound(openteleAvailable, accounts, clients, senders, phones, targets, voicePath, scripts, n - 1);
      var a := (n - 1) % |senders|;
      if pr.raised.Some? then pr
      else
        match SendAttempt(openteleAvailable, accounts, pr.clients, senders[a], phones[a], voicePath, scripts[n - 1])
        case (Throws(e), cache) => SendProgress(pr.outs, cache, Some(e))
        case (Returns(o), cache) => SendProgress(pr.outs + [o], cache, None)
  }

  /** A voice send never raises; without an exception every turn reports. */
  lemma {:induction false} SendRoundResults(openteleAvailable: bool, accounts: map<string, TelegramAccount>,
                                            clients: map<string, Client>, senders: seq<string>, phones: seq<string>,
                                            targets: seq<string>, voicePath: string, scripts: seq<SendScript>, n: nat)
    requires 0 < |senders| == |phones| && n <= |targets| && n <= |scripts|
    ensures var pr := SendRound(openteleAvailable, accounts, clients, senders, phones, targets, voicePath, scripts, n);
            && |pr.outs| <= n
            && (pr.raised.None? ==> |pr.outs| == n)
            && (pr.raised.Some? ==> |pr.outs| < n)
            && (voicePath != "" ==> pr.raised.None?)
  {
    if n > 0 {
      SendRoundResults(openteleAvailable, accounts, clients, senders, phones, targets, voicePath, scripts, n - 1);
    }
  }

  /** Later turns only append: the outcomes after `m` turns begin the
      outcomes after `n >= m` turns, and an exception ends the loop for good. */
  lemma {:induction false} SendRoundPrefix(openteleAvailable: bool, accounts: map<string, TelegramAccount>,
                                           clients: map<string, Client>, senders: seq<string>, phones: seq<string>,
                                           targets: seq<string>, voicePath: string, scripts: seq<SendScript>,
                                           m: nat, n: nat)
    requires 0 < |senders| == |phones| && m <= n <= |targets| && n <= |scripts|
    ensures var a := SendRound(openteleAvailable, accounts, clients, senders, phones, targets, voicePath, scripts, m);
            var b := SendRound(openteleAvailable, accounts, clients, senders, phones, targets, voicePath, scripts, n);
            && a.outs <= b.outs
            && (a.raised.Some? ==> b == a)
    decreases n
  {
    if n > m {
      SendRoundPrefix(openteleAvailable, accounts, clients, senders, phones, targets, voicePath, scripts, m, n - 1);
      var c := SendRound(openteleAvailable, accounts, clients, senders, phones, targets, voicePath, scripts, n - 1);
      var b := SendRound(openteleAvailable, accounts, clients, senders, phones, targets, voicePath, scripts, n);
      assert c.outs <= b.outs;
    }
  }

  /** The last of `m` turns, when no exception ended them, succeeded
      exactly when its account had a client, looked up against the cache
      the earlier turns left, and the send went through. */
  lemma SendRoundLast(openteleAvailable: bool, accounts: map<string, TelegramAccount>,
                      clients: map<string, Client>, senders: seq<string>, phones: seq<string>,
                      targets: seq<string>, voicePath: string, scripts: seq<SendScript>, m: nat)
    requires 0 < |senders| == |phones| && 0 < m <= |targets| && m <= |scripts|
    requires SendRound(openteleAvailable, accounts, clients, senders, phones, targets, voicePath, scripts, m).raised.None?
    ensures var pr := SendRound(openteleAvailable, accounts, clients, senders, phones, targets, voicePath, scripts, m);
            && |pr.outs| == m
            && (pr.outs[m - 1].0
                <==> LookupFor(openteleAvailable, accounts,
                               SendRound(openteleAvailable, accounts, clients, senders, phones, targets,
                                         voicePath, scripts, m - 1).clients,
                               phones[(m - 1) % |senders|], scripts[m - 1].probe).Hit?
                     && scripts[m - 1].delivery.Sent?)
  {
    SendRoundResults(openteleAvailable, accounts, clients, senders, phones, targets, voicePath, scripts, m - 1);
  }

  /** Turn `j` succeeds exactly when its account had a client, looked up
      under its normalised key against the cache the earlier turns left,
      and the send went through. */
  lemma SendRoundSuccess(openteleAvailable: bool, accounts: map<string, TelegramAccount>,
                         clients: map<string, Client>, senders: seq<string>, phones: seq<string>,
                         targets: seq<string>, voicePath: string, scripts: seq<SendScript>, n: nat, j: nat)
    requires 0 < |senders| == |phones| && n <= |targets| && n <= |scripts|
    requires j < |SendRound(openteleAvailable, accounts, clients, senders, phones, targets, voicePath, scripts, n).outs|
    ensures j < n
    ensures SendRound(openteleAvailable, accounts, clients, senders, phones, targets, voicePath, scripts, n).outs[j].0
            <==> LookupFor(openteleAvailable, accounts,
                           SendRound(openteleAvailable, accounts, clients, senders, phones, targets,
                                     voicePath, scripts, j).clients,
                           phones[j % |senders|], scripts[j].probe).Hit?
                 && scripts[j].delivery.Sent?
  {
    SendRoundResults(openteleAvailable, accounts, clients, senders, phones, targets, voicePath, scripts, n);
    SendRoundResults(openteleAvailable, accounts, clients, senders, phones, targets, voicePath, scripts, j + 1);
    SendRoundPrefix(openteleAvailable, accounts, clients, senders, phones, targets, voicePath, scripts, j + 1, n);
    SendRoundLast(openteleAvailable, accounts, clients, senders, phones, targets, voicePath, scripts, j + 1);
  }

  /** The results `do_send` records for the outcomes `outs` of its first
      turns: turn `j` is the send from `senders[j % |senders|]` to
      `targets[j]`, logged under the account's display name. */
  function Reports(store: map<string, TelegramAccount>, senders: seq<string>, targets: seq<string>,
                   outs: seq<(bool, string)>): (r: seq<SendResult>)
    requires 0 < |senders| && |outs| <= |targets|
    ensures |r| == |outs|
  {
    if |outs| == 0 then []
    else
      var j := |outs| - 1;
      var phone := senders[j % |senders|];
      Reports(store, senders, targets, outs[..j])
        + [SendResult(phone, targets[j], outs[j].0, LogLine(NameFor(store, phone), targets[j], outs[j].0, outs[j].1))]
  }

  /** Result `j` is turn `j`'s send, from account `j mod n` to target `j`,
      with that send's outcome and the log line made from it. */
  lemma {:induction false} ReportsFacts(store: map<string, TelegramAccount>, senders: seq<string>,
                                        targets: seq<string>, outs: seq<(bool, string)>)
    requires 0 < |senders| && |outs| <= |targets|
    ensures forall j :: 0 <= j < |outs| ==>
              var r := Reports(store, senders, targets, outs)[j];
              && r.phone == senders[j % |senders|] && r.target == targets[j] && r.success == outs[j].0
              && r.log == LogLine(NameFor(store, r.phone), targets[j], r.success, outs[j].1)
  {
    if |outs| > 0 {
      ReportsFacts(store, senders, targets, outs[..|outs| - 1]);
      assert forall j :: 0 <= j < |outs| - 1 ==> outs[..|outs| - 1][j] == outs[j];
    }
  }

  class SenderWindow {
    const manager: AccountManager
    const sender: MultiSender
    /** The cards shown, by phone. */
    var accountCards: map<string, AccountCard>
    /** The phones of the selected accounts. */
    var selectedAccounts: set<string>

    /** Each card sits under its own phone, and the selected set holds
        exactly the phones of the selected cards. */
    ghost predicate Valid()
      reads this, manager, accountCards.Values
    {
      && manager.Valid()
      && sender.manager == manager
      && (forall k :: k in accountCards ==> accountCards[k].phone == k)
      && (forall k :: k in selectedAccounts ==> k in accountCards)
      && (forall k :: k in accountCards ==> (accountCards[k].selected <==> k in selectedAccounts))
    }

    constructor(manager: AccountManager, sender: MultiSender)
      requires manager.Valid() && sender.manager == manager
      ensures Valid()
      ensures this.manager == manager && this.sender == sender
      ensures accountCards == map[] && selectedAccounts == {}
    {
      this.manager := manager;
      this.sender := sender;
      accountCards := map[];
      selectedAccounts := {};
    }

    /** `_on_account_select`: add or discard the phone; the new counter
        text is returned. */
    method OnAccountSelect(phone: string, selected: bool) returns (counter: string)
      modifies this
      ensures selectedAccounts == if selected then old(selectedAccounts) + {phone}
                                  else old(selectedAccounts) - {phone}
      ensures accountCards == old(accountCards)
      ensures counter == SelectedLabel(|selectedAccounts|)
    {
      if selected {
        selectedAccounts := selectedAccounts + {phone};
      } else {
        selectedAccounts := selectedAccounts - {phone};
      }
      counter := SelectedLabel(|selectedAccounts|);
    }

    /** A click on a card: the card toggles, then reports its phone and
        new state to `_on_account_select`. */
    method ClickCard(phone: string) returns (counter: string)
      requires Valid() && phone in accountCards
      modifies this, accountCards[phone]
      ensures Valid()
      ensures accountCards == old(accountCards)
      ensures accountCards[phone].selected == !old(accountCards[phone].selected)
      ensures forall k :: k in accountCards && k != phone ==> accountCards[k].selected == old(accountCards[k].selected)
      ensures forall k :: k in accountCards ==> accountCards[k].status == old(accountCards[k].status)
      ensures selectedAccounts == if phone in old(selectedAccounts) then old(selectedAccounts) - {phone}
                                  else old(selectedAccounts) + {phone}
      ensures counter == SelectedLabel(|selectedAccounts|)
    {
      var card := accountCards[phone];
      card.ToggleSelect();
      counter := OnAccountSelect(card.phone, card.selected);
    }

    /** One step of `_select_all`: card `k` selected and its phone added. */
    method SelectCard(k: string)
      requires Valid() && k in accountCards
      modifies this, accountCards[k]
      ensures Valid()
      ensures accountCards == old(accountCards)
      ensures selectedAccounts == old(selectedAccounts) + {k}
      ensures forall j :: j in accountCards ==> accountCards[j].status == old(accountCards[j].status)
    {
      accountCards[k].SetSelected(true);
      selectedAccounts := selectedAccounts + {k};
    }

    /** `_select_all`: every card selected and every card's phone added. */
    method SelectAll() returns (counter: string)
      requires Valid()
      modifies this, accountCards.Values
      ensures Valid()
      ensures accountCards == old(accountCards)
      ensures selectedAccounts == accountCards.Keys
      ensures forall k :: k in accountCards ==> accountCards[k].selected
      ensures forall k :: k in accountCards ==> accountCards[k].status == old(accountCards[k].status)
      ensures counter == SelectedLabel(|selectedAccounts|)
    {
      var todo := accountCards.Keys;
      while todo != {}
        invariant todo <= accountCards.Keys && accountCards == old(accountCards)
        invariant Valid()
        invariant forall k :: k in accountCards ==> accountCards[k].status == old(accountCards[k].status)
        invariant accountCards.Keys - todo <= selectedAccounts
        decreases todo
      {
        var k :| k in todo;
        SelectCard(k);
        todo := todo - {k};
      }
      counter := SelectedLabel(|selectedAccounts|);
    }

    /** `_deselect_all`: every card cleared and the set emptied. */
    method DeselectAll() returns (counter: string)
      requires Valid()
      modifies this, accountCards.Values
      ensures Valid()
      ensures accountCards == old(accountCards)
      ensures selectedAccounts == {}
      ensures forall k :: k in accountCards ==> !accountCards[k].selected
      ensures forall k :: k in accountCards ==> accountCards[k].status == old(accountCards[k].status)
      ensures counter == SelectedLabel(0)
    {
      var todo := accountCards.Keys;
      while todo != {}
        invariant todo <= accountCards.Keys && accountCards == old(accountCards)
        invariant forall k :: k in accountCards ==> accountCards[k].status == old(accountCards[k].status)
        invariant forall k :: k in accountCards ==> accountCards[k].phone == k
        invariant forall k :: k in accountCards && k !in todo ==> !accountCards[k].selected
        decreases todo
      {
        var k :| k in todo;
        accountCards[k].SetSelected(false);
        todo := todo - {k};
      }
      selectedAccounts := {};
      counter := SelectedLabel(0);
    }

    /** `_on_account_delete`: when the user confirms, the account leaves
        the store, its card leaves the window and its phone leaves the
        selection; otherwise nothing changes. */
    method OnAccountDelete(phone: string, confirmed: bool) returns (log: Option<string>)
      requires Valid()
      modifies this, manager
      ensures Valid()
      ensures !confirmed ==> log == None && accountCards == old(accountCards)
                             && selectedAccounts == old(selectedAccounts)
                             && manager.accounts == old(manager.accounts) && manager.order == old(manager.order)
      ensures confirmed ==>
                && log == Some("已删除账号: " + phone)
                && accountCards == old(accountCards) - {phone}
                && selectedAccounts == old(selectedAccounts) - {phone}
                && manager.accounts == old(manager.accounts) - {NormalizePhone(phone)}
                && manager.order == Drop(old(manager.order), NormalizePhone(phone))
      ensures manager.clients == old(manager.clients)
    {
      if !confirmed {
        return None;
      }
      manager.RemoveAccount(phone);
      accountCards := accountCards - {phone};
      selectedAccounts := selectedAccounts - {phone};
      log := Some("已删除账号: " + phone);
    }

    /** `_load_accounts`: the cards are rebuilt, one fresh unselected card
        per stored account in key order, and the selection is emptied.
        `len(accounts)` is the length of the key order, which holds every
        key once. */
    method LoadAccounts() returns (log: string)
      requires Valid()
      modifies this
      ensures Valid()
      ensures accountCards.Keys == manager.accounts.Keys
      ensures forall k :: k in accountCards ==>
                fresh(accountCards[k]) && !accountCards[k].selected && accountCards[k].status == Unknown
      ensures selectedAccounts == {}
      ensures log == "已加载 " + NatToString(|manager.order|) + " 个账号"
    {
      accountCards := map[];
      selectedAccounts := {};
      var order := manager.order;
      var i := 0;
      while i < |order|
        invariant 0 <= i <= |order|
        invariant selectedAccounts == {}
        invariant forall k :: k in accountCards <==> k in order[..i]
        invariant forall k :: k in accountCards ==>
                    accountCards[k].phone == k && fresh(accountCards[k])
                    && !accountCards[k].selected && accountCards[k].status == Unknown
      {
        var account := manager.accounts[order[i]];
        var card := new AccountCard(account.phone);
        accountCards := accountCards[account.phone := card];
        assert order[..i + 1] == order[..i] + [order[i]];
        i := i + 1;
      }
      assert order[..i] == order;
      log := "已加载 " + NatToString(|order|) + " 个账号";
    }

    /** `list(self.selected_accounts)`: the selected phones, each once, in
        an order the window does not choose. */
    method SelectedList() returns (r: seq<string>)
      ensures Distinct(r)
      ensures forall k :: k in r <==> k in selectedAccounts
      ensures |r| == |selectedAccounts|
    {
      r := [];
      var todo := selectedAccounts;
      while todo != {}
        invariant todo <= selectedAccounts
        invariant Distinct(r)
        invariant forall k :: k in r <==> k in selectedAccounts && k !in todo
        invariant |r| + |todo| == |selectedAccounts|
        decreases todo
      {
        var k :| k in todo;
        r := r + [k];
        todo := todo - {k};
      }
    }

    /** `_check_all_status` before its loop: with no card there is nothing
        to check and an information text instead; otherwise every card
        shows "checking". */
    method StartCheck() returns (notice: Option<string>)
      requires Valid()
      modifies accountCards.Values
      ensures Valid()
      ensures notice.Some? <==> accountCards == map[]
      ensures notice.Some? ==> notice.value == "没有账号可检测"
      ensures forall k :: k in accountCards ==> accountCards[k].status == Checking
    {
      if accountCards == map[] {
        return Some("没有账号可检测");
      }
      var todo := accountCards.Keys;
      while todo != {}
        invariant todo <= accountCards.Keys
        invariant Valid()
        invariant forall k :: k in accountCards && k !in todo ==> accountCards[k].status == Checking
        decreases todo
      {
        var k :| k in todo;
        accountCards[k].SetStatus(Checking);
        todo := todo - {k};
      }
      notice := None;
    }

    /** One turn of `do_check`'s loop: look the client of `k` up,
        catching its exception, classify what follows and report it after
        `results`. */
    method CheckOne(k: string, ghost p: string, sc: CheckScript, results: seq<(string, AccountStatus)>)
      returns (pr: CheckProgress)
      requires manager.Valid()
      requires p == NormalizePhone(k)
      modifies manager
      ensures manager.Valid()
      ensures manager.accounts == old(manager.accounts) && manager.order == old(manager.order)
      ensures pr == CheckTurn(manager.openteleAvailable, manager.accounts, CheckProgress(results, old(manager.clients)),
                              k, p, sc)
      ensures manager.clients == pr.clients
    {
      var lookup := manager.GetClient(k, sc.probe);
      pr := CheckProgress(results + [(k, CheckStatus(lookup, sc))], manager.clients);
    }

    /** One pass of `do_check`'s loop: the key `keys[i]` is checked and
        its status reported after the first `i`. */
    method CheckNext(keys: seq<string>, ghost phones: seq<string>, scripts: seq<CheckScript>,
                     ghost clients0: map<string, Client>, i: nat, results: seq<(string, AccountStatus)>)
      returns (results': seq<(string, AccountStatus)>)
      requires manager.Valid()
      requires i < |keys| && |scripts| == |keys| && phones == NormalizeAll(keys)
      requires CheckPrefix(manager.openteleAvailable, manager.accounts, clients0, keys, phones, scripts, i)
               == CheckProgress(results, manager.clients)
      modifies manager
      ensures manager.Valid()
      ensures manager.accounts == old(manager.accounts) && manager.order == old(manager.order)
      ensures CheckPrefix(manager.openteleAvailable, manager.accounts, clients0, keys, phones, scripts, i + 1)
              == CheckProgress(results', manager.clients)
    {
      var pr := CheckOne(keys[i], phones[i], scripts[i], results);
      results' := pr.results;
    }

    /** `do_check`: every stored account in key order gets a status, and
        the client cache evolves as the lookups leave it. */
    method DoCheck(scripts: seq<CheckScript>) returns (results: seq<(string, AccountStatus)>)
      requires Valid()
      requires |scripts| == |manager.order|
      modifies manager
      ensures Valid()
      ensures manager.accounts == old(manager.accounts) && manager.order == old(manager.order)
      ensures CheckPrefix(manager.openteleAvailable, manager.accounts, old(manager.clients), manager.order,
                          NormalizeAll(manager.order), scripts, |manager.order|)
              == CheckProgress(results, manager.clients)
    {
      var keys := manager.order;
      ghost var phones := NormalizeAll(keys);
      ghost var clients0 := manager.clients;
      results := [];
      var i := 0;
      while i < |keys|
        invariant 0 <= i <= |keys|
        invariant manager.Valid()
        invariant manager.accounts == old(manager.accounts) && manager.order == keys
        invariant CheckPrefix(manager.openteleAvailable, manager.accounts, clients0, keys, phones, scripts, i)
                  == CheckProgress(results, manager.clients)
      {
        results := CheckNext(keys, phones, scripts, clients0, i, results);
        i := i + 1;
      }
    }

    /** `_on_status_update`: the card of `phone`, if it is still shown,
        displays the new status. */
    method OnStatusUpdate(phone: string, status: AccountStatus)
      requires Valid()
      modifies accountCards.Values
      ensures Valid()
      ensures phone in accountCards ==> accountCards[phone].status == status
      ensures forall k :: k in accountCards && k != phone ==> accountCards[k].status == old(accountCards[k].status)
    {
      if phone in accountCards {
        accountCards[phone].SetStatus(status);
      }
    }

    /** One send of the round-robin loop: text through `send_from_account`,
        whose lookup exception propagates, or a voice note through
        `_send_voice_msg`, which catches everything. */
    method SendOne(phone: string, target: string, message: string, voicePath: string, sc: SendScript)
      returns (out: Reply<(bool, string)>)
      requires manager.Valid() && sender.manager == manager
      modifies manager
      ensures manager.Valid()
      ensures manager.accounts == old(manager.accounts) && manager.order == old(manager.order)
      ensures (out, manager.clients)
              == SendAttempt(manager.openteleAvailable, old(manager.accounts), old(manager.clients),
                             phone, NormalizePhone(phone), voicePath, sc)
      ensures out.Returns? && out.value.0 ==> sc.delivery.Sent?
      ensures out.Throws? ==> voicePath == ""
    {
      if voicePath == "" {
        out := sender.SendFromAccount(phone, target, message, Attempt(sc.probe, sc.delivery));
      } else {
        var lookup := manager.GetClient(phone, sc.probe);
        out := Returns(VoiceOutcome(lookup, sc));
      }
    }

    /** One turn of `do_send`'s loop: the send and its log line. */
    method SendTurn(phone: string, target: string, message: string, voicePath: string, sc: SendScript)
      returns (res: Reply<SendResult>, ghost msg: string)
      requires manager.Valid() && sender.manager == manager
      modifies manager
      ensures manager.Valid()
      ensures manager.accounts == old(manager.accounts) && manager.order == old(manager.order)
      ensures res.Throws? ==> voicePath == ""
      ensures res.Returns? ==>
                && res.value.phone == phone && res.value.target == target
                && res.value.log == LogLine(NameFor(manager.accounts, phone), target, res.value.success, msg)
                && (res.value.success ==> sc.delivery.Sent?)
      ensures var (out, cache) := SendAttempt(manager.openteleAvailable, old(manager.accounts), old(manager.clients),
                                              phone, NormalizePhone(phone), voicePath, sc);
              && manager.clients == cache
              && (out.Throws? ==> res == Throws(out.error))
              && (out.Returns? ==> res.Returns? && out.value == (res.value.success, msg))
    {
      var out := SendOne(phone, target, message, voicePath, sc);
      if out.Throws? {
        return Throws(out.error), "";
      }
      var (success, m) := out.value;
      msg := m;
      res := Returns(SendResult(phone, target, success, LogLine(NameFor(manager.accounts, phone), target, success, m)));
    }

    /** Turn `i` of `do_send`, after the outcomes `outs`: the send from
        `accounts[i % |accounts|]` to `targets[i]`, one more turn of
        SendRound. */
    method SendNext(accounts: seq<string>, ghost phones: seq<string>, targets: seq<string>, message: string,
                    voicePath: string, scripts: seq<SendScript>, ghost clients0: map<string, Client>, i: nat,
                    ghost outs: seq<(bool, string)>)
      returns (res: Reply<SendResult>, ghost msg: string)
      requires manager.Valid() && sender.manager == manager
      requires 0 < |accounts| && phones == NormalizeAll(accounts)
      requires i < |targets| && |scripts| == |targets|
      requires SendRound(manager.openteleAvailable, manager.accounts, clients0, accounts, phones, targets,
                         voicePath, scripts, i)
               == SendProgress(outs, manager.clients, None)
      modifies manager
      ensures manager.Valid()
      ensures manager.accounts == old(manager.accounts) && manager.order == old(manager.order)
      ensures res.Returns? ==>
                && res.value.phone == accounts[i % |accounts|] && res.value.target == targets[i]
                && res.value.log == LogLine(NameFor(manager.accounts, res.value.phone), targets[i],
                                            res.value.success, msg)
                && (res.value.success ==> scripts[i].delivery.Sent?)
      ensures SendRound(manager.openteleAvailable, manager.accounts, clients0, accounts, phones, targets,
                        voicePath, scripts, i + 1)
              == match res
                 case Throws(e) => SendProgress(outs, manager.clients, Some(e))
                 case Returns(r) => SendProgress(outs + [(r.success, msg)], manager.clients, None)
    {
      var a := i % |accounts|;
      assert phones[a] == NormalizePhone(accounts[a]);
      res, msg := SendTurn(accounts[a], targets[i], message, voicePath, scripts[i]);
    }

    /** The body of `do_send`'s loop for target `i`, after the results,
        events, pauses and send outcomes of the turns before it. */
    method AdvanceSend(accounts: seq<string>, ghost phones: seq<string>, targets: seq<string>, message: string,
                       voicePath: string, scripts: seq<SendScript>, ghost clients0: map<string, Client>,
                       ghost store: map<string, TelegramAccount>, i: nat,
                       results: seq<SendResult>, events: seq<ProgressEvent>, pauses: nat, ghost outs: seq<(bool, string)>)
      returns (results': seq<SendResult>, events': seq<ProgressEvent>, pauses': nat,
               raised: Option<ProtoError>, ghost outs': seq<(bool, string)>)
      requires manager.Valid() && sender.manager == manager
      requires 0 < |accounts| && phones == NormalizeAll(accounts)
      requires i < |targets| && |scripts| == |targets| && manager.accounts == store
      requires |results| == i && |events| == i && |outs| == i
      requires results == Reports(store, accounts, targets, outs)
      requires events == Events(results, |targets|)
      requires pauses == Pauses(i, |targets|)
      requires SendRound(manager.openteleAvailable, store, clients0, accounts, phones, targets, voicePath, scripts, i)
               == SendProgress(outs, manager.clients, None)
      modifies manager
      ensures manager.Valid()
      ensures manager.accounts == old(manager.accounts) && manager.order == old(manager.order)
      ensures raised.Some? ==>
                && results' == results && events' == events && pauses' == pauses && outs' == outs
                && voicePath == ""
                && SendRound(manager.openteleAvailable, store, clients0, accounts, phones, targets, voicePath, scripts,
                             i + 1)
                   == SendProgress(outs, manager.clients, raised)
      ensures raised.None? ==>
                && |results'| == i + 1 && |events'| == i + 1 && |outs'| == i + 1
                && results' == Reports(store, accounts, targets, outs')
                && events' == Events(results', |targets|)
                && pauses' == Pauses(i + 1, |targets|)
                && SendRound(manager.openteleAvailable, store, clients0, accounts, phones, targets, voicePath, scripts,
                             i + 1)
                   == SendProgress(outs', manager.clients, None)
    {
      var res, msg := SendNext(accounts, phones, targets, message, voicePath, scripts, clients0, i, outs);
      if res.Throws? {
        return results, events, pauses, Some(res.error), outs;
      }
      results' := results + [res.value];
      events' := events + [ProgressEvent(i + 1, |targets|, res.value.success, res.value.log)];
      assert results'[..i] == results;
      assert (outs + [(res.value.success, msg)])[..i] == outs;
      outs' := outs + [(res.value.success, msg)];
      pauses' := if i + 1 < |targets| then pauses + 1 else pauses;
      raised := None;
    }

    /** `do_send`: target `i` goes out from account `accounts[i % n]`; the
        stop flag (`sending[i]`, its value when target `i` comes up) is read
        before each send; a log line and a progress event follow each send,
        and a pause follows each send but the last. An exception of a text
        send ends the loop and propagates. `outs` are the success flags and
        messages the sends returned. */
    method DoSend(accounts: seq<string>, targets: seq<string>, message: string, voicePath: string,
                  sending: seq<bool>, scripts: seq<SendScript>)
      returns (results: seq<SendResult>, events: seq<ProgressEvent>, pauses: nat,
               raised: Option<ProtoError>, ghost outs: seq<(bool, string)>)
      requires manager.Valid() && sender.manager == manager
      requires |accounts| > 0
      requires |sending| == |targets| && |scripts| == |targets|
      modifies manager
      ensures manager.Valid()
      ensures manager.accounts == old(manager.accounts) && manager.order == old(manager.order)
      ensures |results| <= |targets| && |events| == |results| && |outs| == |results|
      // A send starts only while the flag is up; the loop ends at the first
      // lowered flag, at an exception, or at the end of the list.
      ensures forall i :: 0 <= i < |results| ==> sending[i]
      ensures raised.None? && |results| < |targets| ==> !sending[|results|]
      ensures raised.Some? ==> |results| < |targets| && sending[|results|] && voicePath == ""
      // Round-robin assignment, and what is logged (see ReportsFacts).
      ensures results == Reports(manager.accounts, accounts, targets, outs)
      ensures events == Events(results, |targets|)
      ensures pauses == Pauses(|results|, |targets|)
      // The outcomes, the cache and the exception are those of the turns taken.
      ensures var k := if raised.Some? then |results| + 1 else |results|;
              k <= |targets|
              && SendRound(manager.openteleAvailable, manager.accounts, old(manager.clients), accounts,
                           NormalizeAll(accounts), targets, voicePath, scripts, k)
                 == SendProgress(outs, manager.clients, raised)
    {
      var n := |accounts|;
      var total := |targets|;
      results, events, pauses, raised, outs := [], [], 0, None, [];
      ghost var clients0 := manager.clients;
      ghost var phones := NormalizeAll(accounts);
      ghost var store := manager.accounts;
      var i := 0;
      while i < total
        invariant 0 <= i <= total
        invariant manager.Valid()
        invariant manager.accounts == store == old(manager.accounts) && manager.order == old(manager.order)
        invariant |results| == i && |events| == i && |outs| == i && raised.None?
        invariant forall j :: 0 <= j < i ==> sending[j]
        invariant results == Reports(store, accounts, targets, outs)
        invariant events == Events(results, total)
        invariant pauses == Pauses(i, total)
        invariant SendRound(manager.openteleAvailable, store, clients0, accounts, phones, targets,
                            voicePath, scripts, i)
                  == SendProgress(outs, manager.clients, None)
      {
        if !sending[i] {
          break;
        }
        ghost var before := results;
        results, events, pauses, raised, outs :=
          AdvanceSend(accounts, phones, targets, message, voicePath, scripts, clients0, store, i,
                      results, events, pauses, outs);
        if raised.Some? {
          assert |results| == |before| == i;
          assert SendRound(manager.openteleAvailable, store, clients0, accounts, phones, targets,
                           voicePath, scripts, i + 1)
                 == SendProgress(outs, manager.clients, raised);
          return;
        }
        assert forall j :: 0 <= j <= i ==> sending[j];
        i := i + 1;
      }
      assert SendRound(manager.openteleAvailable, store, clients0, accounts, phones, targets,
                       voicePath, scripts, |results|)
             == SendProgress(outs, manager.clients, None);
    }
  }
}
