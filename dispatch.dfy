/** `MultiSender`: sending one message through the accounts of an
    `AccountManager`, from one account, from every logged-in account, or
    from one account to many targets. */
module Dispatch {
  import opened Wrappers
  import opened Text
  import opened Protocol
  import opened Accounts
  import opened Manager

  /** How `send_message` ends: delivered, or an exception whose text is
      `text`. */
  datatype Delivery = Sent | Refused(text: string)

  /** One line of `send_from_all`'s result. */
  datatype SendRecord = SendRecord(phone: string, success: bool, message: string)

  /** What one account's attempt is told by the outside world: the probe for
      `get_client` and the fate of `send_message`. */
  datatype Attempt = Attempt(probe: ClientProbe, delivery: Delivery)

  function NotLoggedInMessage(phone: string): string {
    "账号 " + phone + " 未登录"
  }

  function SentMessage(phone: string): string {
    "[" + phone + "] 发送成功"
  }

  function FailedMessage(phone: string, text: string): string {
    "[" + phone + "] 发送失败: " + text
  }

  /** `send_from_account` once the client lookup has given `lookup`: an
      exception of the lookup propagates; no client reports the account as
      not logged in; otherwise the send's own outcome, caught. */
  function SendOutcome(phone: string, lookup: Lookup, delivery: Delivery): (r: Reply<(bool, string)>)
    ensures r.Throws? <==> lookup.LookupRaised?
    ensures r.Returns? ==> (r.value.0 <==> lookup.Hit? && delivery.Sent?)
  {
    match lookup
    case LookupRaised(e) => Throws(e)
    case Miss => Returns((false, NotLoggedInMessage(phone)))
    case Hit(_) =>
      match delivery
      case Sent => Returns((true, SentMessage(phone)))
      case Refused(text) => Returns((false, FailedMessage(phone, text)))
  }

  /** The three messages of `send_from_account` never coincide, so the
      message alone tells which case happened. */
  lemma SendMessagesDistinct(phone: string, text: string)
    ensures SentMessage(phone) != FailedMessage(phone, text)
    ensures NotLoggedInMessage(phone) != SentMessage(phone)
    ensures NotLoggedInMessage(phone) != FailedMessage(phone, text)
  {
    assert NotLoggedInMessage(phone)[0] != SentMessage(phone)[0];
    assert NotLoggedInMessage(phone)[0] != FailedMessage(phone, text)[0];
    var n := |phone| + 5;
    assert SentMessage(phone)[n] != FailedMessage(phone, text)[n];
  }

  /** `send_from_account(phone, …)` against the store `accounts` and the
      cache `clients`: its outcome and the cache it leaves. */
  function AccountSend(openteleAvailable: bool, accounts: map<string, TelegramAccount>,
                       clients: map<string, Client>, phone: string, attempt: Attempt)
    : (r: (Reply<(bool, string)>, map<string, Client>))
  {
    var p := NormalizePhone(phone);
    (SendOutcome(phone, LookupFor(openteleAvailable, accounts, clients, p, attempt.probe), attempt.delivery),
     CacheAfter(openteleAvailable, accounts, clients, p, attempt.probe))
  }

  /** Where `send_from_all` stands after some keys: the records so far, the
      client cache, and the exception that ended the loop, if one did. */
  datatype Progress = Progress(records: seq<SendRecord>, clients: map<string, Client>, raised: Option<ProtoError>)

  /** One turn of `send_from_all`'s loop, for key `k` whose normalised form
      is `p`: skipped when the account is not logged in, else
      `send_from_account(k, …)`. */
  function SendStep(openteleAvailable: bool, accounts: map<string, TelegramAccount>,
                    pr: Progress, k: string, p: string, attempt: Attempt): Progress
  {
    if pr.raised.Some? || k !in accounts || !accounts[k].loggedIn then pr
    else
      var out := SendOutcome(k, LookupFor(openteleAvailable, accounts, pr.clients, p, attempt.probe), attempt.delivery);
      var cache := CacheAfter(openteleAvailable, accounts, pr.clients, p, attempt.probe);
      match out
      case Throws(e) => Progress(pr.records, cache, Some(e))
      case Returns((ok, msg)) => Progress(pr.records + [SendRecord(k, ok, msg)], cache, None)
  }

  /** `send_from_all` over the first `n` keys of `order`, whose normalised
      forms are `phones`; `attempts[i]` is what the outside world does for
      the key `order[i]`. */
  function SendPrefix(openteleAvailable: bool, accounts: map<string, TelegramAccount>, clients: map<string, Client>,
                      order: seq<string>, phones: seq<string>, attempts: seq<Attempt>, n: nat): Progress
    requires n <= |order| <= |attempts| && |phones| == |order|
  {
    if n == 0 then Progress([], clients, None)
    else SendStep(openteleAvailable, accounts,
                  SendPrefix(openteleAvailable, accounts, clients, order, phones, attempts, n - 1),
                  order[n - 1], phones[n - 1], attempts[n - 1])
  }

  /** The keys of `keys` whose accounts are logged in, in order. */
  function LoggedInKeys(accounts: map<string, TelegramAccount>, keys: seq<string>): (r: seq<string>)
    ensures |r| <= |keys|
    ensures forall k :: k in r ==> k in keys && k in accounts && accounts[k].loggedIn
    ensures forall k :: k in keys && k in accounts && accounts[k].loggedIn ==> k in r
  {
    if |keys| == 0 then []
    else
      var front := LoggedInKeys(accounts, keys[..|keys| - 1]);
      var k := keys[|keys| - 1];
      assert forall j :: j in keys ==> j in keys[..|keys| - 1] || j == k;
      if k in accounts && accounts[k].loggedIn then front + [k] else front
  }

  /** One more key of `order` adds it to the logged-in keys exactly when
      its account is logged in. */
  lemma LoggedInKeysStep(accounts: map<string, TelegramAccount>, order: seq<string>, n: nat)
    requires 0 < n <= |order|
    ensures LoggedInKeys(accounts, order[..n])
            == LoggedInKeys(accounts, order[..n - 1])
               + (if order[n - 1] in accounts && accounts[order[n - 1]].loggedIn then [order[n - 1]] else [])
  {
    assert order[..n][..n - 1] == order[..n - 1];
  }

  /** Filtering keeps the key order: the logged-in keys of `a + b` are
      those of `a` followed by those of `b`. */
  lemma {:induction false} LoggedInKeysAppend(accounts: map<string, TelegramAccount>, a: seq<string>, b: seq<string>)
    ensures LoggedInKeys(accounts, a + b) == LoggedInKeys(accounts, a) + LoggedInKeys(accounts, b)
    decreases |b|
  {
    if |b| == 0 {
      assert a + b == a;
    } else {
      var b', k := b[..|b| - 1], b[|b| - 1];
      var tail := if k in accounts && accounts[k].loggedIn then [k] else [];
      LoggedInKeysAppend(accounts, a, b');
      var ab := a + b;
      assert ab[..|ab| - 1] == a + b' && ab[|ab| - 1] == k;
      assert LoggedInKeys(accounts, ab) == LoggedInKeys(accounts, a + b') + tail;
      assert LoggedInKeys(accounts, b) == LoggedInKeys(accounts, b') + tail;
    }
  }

  /** `records` report the keys `keys` one to one, in order, and a success
      is reported with the success message. */
  predicate ReportsKeys(records: seq<SendRecord>, keys: seq<string>) {
    && |records| == |keys|
    && (forall j :: 0 <= j < |keys| ==> records[j].phone == keys[j])
    && (forall j :: 0 <= j < |keys| ==> records[j].success ==> records[j].message == SentMessage(keys[j]))
  }

  /** One more record for one more key keeps the reports matched. */
  lemma ReportsKeysExtend(records: seq<SendRecord>, keys: seq<string>, rec: SendRecord, k: string)
    requires ReportsKeys(records, keys)
    requires rec.phone == k && (rec.success ==> rec.message == SentMessage(k))
    ensures ReportsKeys(records + [rec], keys + [k])
  {
    assert forall j :: 0 <= j < |keys| ==> (records + [rec])[j] == records[j] && (keys + [k])[j] == keys[j];
  }

  /** Unless an exception ended it, `send_from_all` reports once for every
      logged-in account, in key order and under the account's key, and a
      success is reported with the success message. */
  lemma {:induction false} SendPrefixRecords(openteleAvailable: bool, accounts: map<string, TelegramAccount>,
                                             clients: map<string, Client>, order: seq<string>,
                                             phones: seq<string>, attempts: seq<Attempt>, n: nat)
    requires n <= |order| <= |attempts| && |phones| == |order|
    ensures var pr := SendPrefix(openteleAvailable, accounts, clients, order, phones, attempts, n);
            pr.raised.None? ==> ReportsKeys(pr.records, LoggedInKeys(accounts, order[..n]))
  {
    if n > 0 {
      SendPrefixRecords(openteleAvailable, accounts, clients, order, phones, attempts, n - 1);
      var pr := SendPrefix(openteleAvailable, accounts, clients, order, phones, attempts, n - 1);
      LoggedInKeysStep(accounts, order, n);
      if pr.raised.None? {
        SendStepRecords(openteleAvailable, accounts, pr, LoggedInKeys(accounts, order[..n - 1]),
                        order[n - 1], phones[n - 1], attempts[n - 1]);
      }
    }
  }

  /** One turn of `send_from_all` that raises nothing adds one record, for
      the key it was given, exactly when that account is logged in. */
  lemma SendStepRecords(openteleAvailable: bool, accounts: map<string, TelegramAccount>,
                        pr: Progress, keys: seq<string>, k: string, p: string, attempt: Attempt)
    requires pr.raised.None? && ReportsKeys(pr.records, keys)
    ensures var st := SendStep(openteleAvailable, accounts, pr, k, p, attempt);
            st.raised.None? ==>
              if k in accounts && accounts[k].loggedIn then
                st.records == pr.records + [st.records[|pr.records|]] && ReportsKeys(st.records, keys + [k])
              else st.records == pr.records
  {
    var st := SendStep(openteleAvailable, accounts, pr, k, p, attempt);
    if st.raised.None? && k in accounts && accounts[k].loggedIn {
      var rec := SendRecord(k, st.records[|pr.records|].success, st.records[|pr.records|].message);
      assert st.records == pr.records + [rec];
      ReportsKeysExtend(pr.records, keys, rec, k);
    }
  }

  /** An exception stops `send_from_all` for good: no later key adds a
      record or touches the cache. */
  lemma {:induction false} SendPrefixStops(openteleAvailable: bool, accounts: map<string, TelegramAccount>,
                                           clients: map<string, Client>, order: seq<string>,
                                           phones: seq<string>, attempts: seq<Attempt>, m: nat, n: nat)
    requires m <= n <= |order| <= |attempts| && |phones| == |order|
    requires SendPrefix(openteleAvailable, accounts, clients, order, phones, attempts, m).raised.Some?
    ensures SendPrefix(openteleAvailable, accounts, clients, order, phones, attempts, n)
            == SendPrefix(openteleAvailable, accounts, clients, order, phones, attempts, m)
    decreases n
  {
    if n > m {
      SendPrefixStops(openteleAvailable, accounts, clients, order, phones, attempts, m, n - 1);
    }
  }

  /** Where `batch_send` stands after the first `n` entries of its plan:
      the client cache, the exception that ended it if one did, and the
      number of accounts served before that. */
  datatype BatchProgress = BatchProgress(clients: map<string, Client>, raised: Option<ProtoError>, done: nat)

  /** The first `n` entries of `batch_send`: each account is looked up
      (`send_to_multiple` calls `get_client`) against the cache the entries
      before it left, with the probe `probes[j]`; a lookup that raises ends
      the batch. */
  function BatchPrefix(openteleAvailable: bool, accounts: map<string, TelegramAccount>, clients: map<string, Client>,
                       plan: seq<(string, seq<string>)>, probes: seq<ClientProbe>, n: nat): BatchProgress
    requires n <= |plan| <= |probes|
  {
    if n == 0 then BatchProgress(clients, None, 0)
    else
      var pr := BatchPrefix(openteleAvailable, accounts, clients, plan, probes, n - 1);
      if pr.raised.Some? then pr
      else
        var p := NormalizePhone(plan[n - 1].0);
        var cache := CacheAfter(openteleAvailable, accounts, pr.clients, p, probes[n - 1]);
        match LookupFor(openteleAvailable, accounts, pr.clients, p, probes[n - 1])
        case LookupRaised(e) => BatchProgress(cache, Some(e), n - 1)
        case _ => BatchProgress(cache, None, n)
  }

  /** Entry `j` is where the batch stopped: its lookup raised against the
      cache the entries before it left, with the probe's connection raising,
      none of the entries before it raised, and the rest of the plan changes
      nothing. */
  lemma BatchStopsAt(openteleAvailable: bool, accounts: map<string, TelegramAccount>,
                     clients: map<string, Client>, plan: seq<(string, seq<string>)>,
                     probes: seq<ClientProbe>, j: nat, before: map<string, Client>,
                     after: map<string, Client>, e: ProtoError)
    requires j < |plan| <= |probes|
    requires BatchPrefix(openteleAvailable, accounts, clients, plan, probes, j) == BatchProgress(before, None, j)
    requires BatchPrefix(openteleAvailable, accounts, clients, plan, probes, j + 1) == BatchProgress(after, Some(e), j)
    ensures BatchPrefix(openteleAvailable, accounts, clients, plan, probes, |plan|) == BatchProgress(after, Some(e), j)
    ensures forall k :: 0 <= k <= j ==> BatchPrefix(openteleAvailable, accounts, clients, plan, probes, k).raised.None?
    ensures LookupFor(openteleAvailable, accounts, before, NormalizePhone(plan[j].0), probes[j]) == LookupRaised(e)
    ensures probes[j].connect == Raised(e)
  {
    BatchRaisesAt(openteleAvailable, accounts, clients, plan, probes, j, before, e);
    BatchEndsAt(openteleAvailable, accounts, clients, plan, probes, j, after, e);
    BatchPrefixNoneBefore(openteleAvailable, accounts, clients, plan, probes, j);
  }

  /** Once entry `j` has raised, the rest of the plan changes nothing: the
      batch ends where it stopped. */
  lemma BatchEndsAt(openteleAvailable: bool, accounts: map<string, TelegramAccount>,
                    clients: map<string, Client>, plan: seq<(string, seq<string>)>,
                    probes: seq<ClientProbe>, j: nat, after: map<string, Client>, e: ProtoError)
    requires j < |plan| <= |probes|
    requires BatchPrefix(openteleAvailable, accounts, clients, plan, probes, j + 1) == BatchProgress(after, Some(e), j)
    ensures BatchPrefix(openteleAvailable, accounts, clients, plan, probes, |plan|) == BatchProgress(after, Some(e), j)
  {
    BatchPrefixStops(openteleAvailable, accounts, clients, plan, probes, j + 1, |plan|);
  }

  /** The batch raises at entry `j` only through the lookup of that entry's
      account, and such a lookup raises only when connecting does. */
  lemma BatchRaisesAt(openteleAvailable: bool, accounts: map<string, TelegramAccount>,
                      clients: map<string, Client>, plan: seq<(string, seq<string>)>,
                      probes: seq<ClientProbe>, j: nat, before: map<string, Client>, e: ProtoError)
    requires j < |plan| <= |probes|
    requires BatchPrefix(openteleAvailable, accounts, clients, plan, probes, j) == BatchProgress(before, None, j)
    requires BatchPrefix(openteleAvailable, accounts, clients, plan, probes, j + 1).raised == Some(e)
    ensures LookupFor(openteleAvailable, accounts, before, NormalizePhone(plan[j].0), probes[j]) == LookupRaised(e)
    ensures probes[j].connect == Raised(e)
  {
  }

  /** A batch that has raised nothing after `n` entries raised nothing
      after any fewer. */
  lemma BatchPrefixNoneBefore(openteleAvailable: bool, accounts: map<string, TelegramAccount>,
                              clients: map<string, Client>, plan: seq<(string, seq<string>)>,
                              probes: seq<ClientProbe>, n: nat)
    requires n <= |plan| <= |probes|
    requires BatchPrefix(openteleAvailable, accounts, clients, plan, probes, n).raised.None?
    ensures forall k :: 0 <= k <= n ==> BatchPrefix(openteleAvailable, accounts, clients, plan, probes, k).raised.None?
  {
    forall k | 0 <= k <= n
      ensures BatchPrefix(openteleAvailable, accounts, clients, plan, probes, k).raised.None?
    {
      BatchPrefixRaisedStays(openteleAvailable, accounts, clients, plan, probes, k, n);
    }
  }

  /** Once an entry has raised, every longer prefix has raised too. */
  lemma BatchPrefixRaisedStays(openteleAvailable: bool, accounts: map<string, TelegramAccount>,
                               clients: map<string, Client>, plan: seq<(string, seq<string>)>,
                               probes: seq<ClientProbe>, m: nat, n: nat)
    requires m <= n <= |plan| <= |probes|
    ensures BatchPrefix(openteleAvailable, accounts, clients, plan, probes, m).raised.Some? ==>
              BatchPrefix(openteleAvailable, accounts, clients, plan, probes, n).raised.Some?
  {
    if BatchPrefix(openteleAvailable, accounts, clients, plan, probes, m).raised.Some? {
      BatchPrefixStops(openteleAvailable, accounts, clients, plan, probes, m, n);
    }
  }

  /** An exception stops `batch_send` for good: later entries change
      nothing. */
  lemma {:induction false} BatchPrefixStops(openteleAvailable: bool, accounts: map<string, TelegramAccount>,
                                            clients: map<string, Client>, plan: seq<(string, seq<string>)>,
                                            probes: seq<ClientProbe>, m: nat, n: nat)
    requires m <= n <= |plan| <= |probes|
    requires BatchPrefix(openteleAvailable, accounts, clients, plan, probes, m).raised.Some?
    ensures BatchPrefix(openteleAvailable, accounts, clients, plan, probes, n)
            == BatchPrefix(openteleAvailable, accounts, clients, plan, probes, m)
    decreases n
  {
    if n > m {
      BatchPrefixStops(openteleAvailable, accounts, clients, plan, probes, m, n - 1);
    }
  }

  class MultiSender {
    const manager: AccountManager

    constructor(manager: AccountManager)
      ensures this.manager == manager
    {
      this.manager := manager;
    }

    /** `send_from_account`: look the client up (which may cache it), then
        send, catching the send's exception. */
    method SendFromAccount(phone: string, target: string, message: string, attempt: Attempt)
      returns (r: Reply<(bool, string)>)
      requires manager.Valid()
      modifies manager
      ensures manager.Valid()
      ensures manager.accounts == old(manager.accounts) && manager.order == old(manager.order)
      ensures (r, manager.clients)
              == AccountSend(manager.openteleAvailable, old(manager.accounts), old(manager.clients), phone, attempt)
    {
      var lookup := manager.GetClient(phone, attempt.probe);
      r := SendOutcome(phone, lookup, attempt.delivery);
    }

    /** `send_from_all`: every stored account in key order; those logged in
        send, and each send is reported; an exception from a lookup ends
        the loop and propagates. The pause after each send is not modelled. */
    method SendFromAll(target: string, message: string, attempts: seq<Attempt>)
      returns (r: Reply<seq<SendRecord>>)
      requires manager.Valid()
      requires |attempts| == |manager.order|
      modifies manager
      ensures manager.Valid()
      ensures manager.accounts == old(manager.accounts) && manager.order == old(manager.order)
      ensures var pr := SendPrefix(manager.openteleAvailable, old(manager.accounts), old(manager.clients),
                                   old(manager.order), NormalizeAll(old(manager.order)), attempts,
                                   |old(manager.order)|);
              && manager.clients == pr.clients
              && r == (if pr.raised.Some? then Throws(pr.raised.value) else Returns(pr.records))
    {
      var order := manager.order;
      var accounts := manager.accounts;
      ghost var clients0 := manager.clients;
      ghost var phones := NormalizeAll(order);
      var results: seq<SendRecord> := [];
      var i := 0;
      while i < |order|
        invariant 0 <= i <= |order|
        invariant manager.Valid()
        invariant manager.accounts == accounts && manager.order == order
        invariant SendPrefix(manager.openteleAvailable, accounts, clients0, order, phones, attempts, i)
                  == Progress(results, manager.clients, None)
      {
        var pr := NextTurn(order, phones, target, message, attempts, clients0, i, results);
        if pr.raised.Some? {
          SendPrefixStops(manager.openteleAvailable, accounts, clients0, order, phones, attempts, i + 1, |order|);
          assert pr == SendPrefix(manager.openteleAvailable, accounts, clients0, order, phones, attempts, |order|);
          return Throws(pr.raised.value);
        }
        results := pr.records;
        i := i + 1;
      }
      assert SendPrefix(manager.openteleAvailable, accounts, clients0, order, phones, attempts, |order|)
             == Progress(results, manager.clients, None);
      r := Returns(results);
    }

    /** Turn `i` of `send_from_all`'s loop over `order`: it takes the
        progress after `i` keys to the progress after `i + 1`. */
    method NextTurn(order: seq<string>, ghost phones: seq<string>, target: string, message: string,
                    attempts: seq<Attempt>, ghost clients0: map<string, Client>, i: nat,
                    records: seq<SendRecord>)
      returns (pr: Progress)
      requires manager.Valid()
      requires i < |order| <= |attempts| && phones == NormalizeAll(order)
      requires SendPrefix(manager.openteleAvailable, manager.accounts, clients0, order, phones, attempts, i)
               == Progress(records, manager.clients, None)
      modifies manager
      ensures manager.Valid()
      ensures manager.accounts == old(manager.accounts) && manager.order == old(manager.order)
      ensures pr == SendPrefix(manager.openteleAvailable, manager.accounts, clients0, order, phones, attempts, i + 1)
      ensures manager.clients == pr.clients
    {
      pr := Turn(order[i], phones[i], target, message, attempts[i], records);
    }

    /** One turn of `send_from_all`'s loop, for the key `k`, after the
        records `records`. */
    method Turn(k: string, ghost p: string, target: string, message: string, attempt: Attempt,
                records: seq<SendRecord>)
      returns (pr: Progress)
      requires manager.Valid()
      requires p == NormalizePhone(k)
      modifies manager
      ensures manager.Valid()
      ensures manager.accounts == old(manager.accounts) && manager.order == old(manager.order)
      ensures pr == SendStep(manager.openteleAvailable, manager.accounts,
                             Progress(records, old(manager.clients), None), k, p, attempt)
      ensures manager.clients == pr.clients
    {
      if k !in manager.accounts || !manager.accounts[k].loggedIn {
        return Progress(records, manager.clients, None);
      }
      var out := SendFromAccount(k, target, message, attempt);
      pr := match out
        case Throws(e) => Progress(records, manager.clients, Some(e))
        case Returns((ok, msg)) => Progress(records + [SendRecord(k, ok, msg)], manager.clients, None);
    }

    /** `send_to_multiple`: one lookup; without a client the result is
        empty; with one, every target in order, each send's exception
        caught and reported as a failure. The pauses are not modelled. */
    method SendToMultiple(phone: string, targets: seq<string>, message: string,
                          probe: ClientProbe, deliveries: seq<Delivery>)
      returns (r: Reply<seq<(string, bool)>>)
      requires manager.Valid()
      requires |deliveries| == |targets|
      modifies manager
      ensures manager.Valid()
      ensures manager.accounts == old(manager.accounts) && manager.order == old(manager.order)
      ensures manager.clients == CacheAfter(manager.openteleAvailable, old(manager.accounts),
                                            old(manager.clients), NormalizePhone(phone), probe)
      ensures match LookupFor(manager.openteleAvailable, old(manager.accounts), old(manager.clients),
                              NormalizePhone(phone), probe)
              case LookupRaised(e) => r == Throws(e)
              case Miss => r == Returns([])
              case Hit(_) =>
                && r.Returns? && |r.value| == |targets|
                && forall j :: 0 <= j < |targets| ==> r.value[j] == (targets[j], deliveries[j].Sent?)
    {
      var lookup := manager.GetClient(phone, probe);
      match lookup {
        case LookupRaised(e) => return Throws(e);
        case Miss => return Returns([]);
        case Hit(_) =>
      }
      var results: seq<(string, bool)> := [];
      var j := 0;
      while j < |targets|
        invariant 0 <= j <= |targets|
        invariant |results| == j
        invariant forall m :: 0 <= m < j ==> results[m] == (targets[m], deliveries[m].Sent?)
      {
        results := results + [(targets[j], deliveries[j].Sent?)];
        j := j + 1;
      }
      r := Returns(results);
    }

    /** Entry `j` of `batch_send`'s plan: `send_to_multiple` for its account
        takes the batch after `j` entries to the batch after `j + 1`. */
    method NextBatch(plan: seq<(string, seq<string>)>, message: string, probes: seq<ClientProbe>,
                     deliveries: seq<seq<Delivery>>, ghost accounts0: map<string, TelegramAccount>,
                     ghost clients0: map<string, Client>, j: nat)
      returns (out: Reply<seq<(string, bool)>>, ghost pr: BatchProgress)
      requires manager.Valid() && manager.accounts == accounts0
      requires j < |plan| && |probes| == |plan| && |deliveries| == |plan|
      requires |deliveries[j]| == |plan[j].1|
      requires BatchPrefix(manager.openteleAvailable, accounts0, clients0, plan, probes, j)
               == BatchProgress(manager.clients, None, j)
      modifies manager
      ensures manager.Valid()
      ensures manager.accounts == old(manager.accounts) && manager.order == old(manager.order)
      ensures out.Throws? ==>
                LookupFor(manager.openteleAvailable, accounts0, old(manager.clients),
                          NormalizePhone(plan[j].0), probes[j])
                == LookupRaised(out.error)
      ensures pr == BatchPrefix(manager.openteleAvailable, accounts0, clients0, plan, probes, j + 1)
      ensures pr == if out.Throws? then BatchProgress(manager.clients, Some(out.error), j)
                    else BatchProgress(manager.clients, None, j + 1)
    {
      out := SendToMultiple(plan[j].0, plan[j].1, message, probes[j], deliveries[j]);
      pr := if out.Throws? then BatchProgress(manager.clients, Some(out.error), j)
            else BatchProgress(manager.clients, None, j + 1);
    }

    /** `batch_send`: `send_to_multiple` for each account and its targets,
        in order; the results are discarded, and an exception from a lookup
        ends the batch and propagates. `done` is the number of accounts
        that were served before that. */
    method BatchSend(plan: seq<(string, seq<string>)>, message: string,
                     probes: seq<ClientProbe>, deliveries: seq<seq<Delivery>>)
      returns (raised: Option<ProtoError>, ghost done: nat)
      requires manager.Valid()
      requires |probes| == |plan| && |deliveries| == |plan|
      requires forall j :: 0 <= j < |plan| ==> |deliveries[j]| == |plan[j].1|
      modifies manager
      ensures manager.Valid()
      ensures manager.accounts == old(manager.accounts) && manager.order == old(manager.order)
      ensures done <= |plan|
      ensures raised.None? <==> done == |plan|
      ensures raised.Some? ==> probes[done].connect == Raised(raised.value)
      // The cache, the exception and the stopping point are those of
      // BatchPrefix over the whole plan (see BatchStopsAt).
      ensures BatchPrefix(manager.openteleAvailable, old(manager.accounts), old(manager.clients), plan, probes, |plan|)
              == BatchProgress(manager.clients, raised, done)
      // The batch stops at the first entry whose lookup raises, against the
      // cache the entries before it left.
      ensures forall k :: 0 <= k <= done ==>
                BatchPrefix(manager.openteleAvailable, old(manager.accounts), old(manager.clients), plan, probes, k)
                .raised.None?
      ensures raised.Some? ==>
                LookupFor(manager.openteleAvailable, old(manager.accounts),
                          BatchPrefix(manager.openteleAvailable, old(manager.accounts), old(manager.clients),
                                      plan, probes, done).clients,
                          NormalizePhone(plan[done].0), probes[done])
                == LookupRaised(raised.value)
    {
      ghost var accounts0, clients0 := manager.accounts, manager.clients;
      var j := 0;
      while j < |plan|
        invariant 0 <= j <= |plan|
        invariant manager.Valid()
        invariant manager.accounts == accounts0 && manager.order == old(manager.order)
        invariant BatchPrefix(manager.openteleAvailable, accounts0, clients0, plan, probes, j)
                  == BatchProgress(manager.clients, None, j)
      {
        ghost var before := manager.clients;
        var out, pr := NextBatch(plan, message, probes, deliveries, accounts0, clients0, j);
        if out.Throws? {
          BatchStopsAt(manager.openteleAvailable, accounts0, clients0, plan, probes, j, before, manager.clients, out.error);
          return Some(out.error), j;
        }
        j := j + 1;
      }
      BatchPrefixNoneBefore(manager.openteleAvailable, accounts0, clients0, plan, probes, |plan|);
      return None, |plan|;
    }
  }
}
