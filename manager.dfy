/** `AccountManager`: the account store keyed by normalised phone (a
    dictionary, so its keys keep insertion order), the cache of connected
    clients, login, client lookup and the tdata import. */
module Manager {
  import opened Wrappers
  import opened Text
  import opened Protocol
  import opened Accounts
  import Login

  /** No key occurs twice. */
  predicate Distinct(s: seq<string>) {
    forall i, j :: 0 <= i < j < |s| ==> s[i] != s[j]
  }

  /** The key order after `d[k] = v`: a new key goes last, an existing key
      keeps its place. */
  function Put(order: seq<string>, k: string): (r: seq<string>)
    ensures forall x :: x in r <==> x in order || x == k
    ensures Distinct(order) ==> Distinct(r)
    ensures k in order ==> r == order
    ensures k !in order ==> r == order + [k]
  {
    if k in order then order else order + [k]
  }

  /** The key order after `d.pop(k)`: the others, in their order. */
  function Drop(order: seq<string>, k: string): (r: seq<string>)
    ensures forall x :: x in r <==> x in order && x != k
    ensures Distinct(order) ==> Distinct(r)
    ensures k !in order ==> r == order
  {
    if |order| == 0 then []
    else if order[0] == k then Drop(order[1..], k)
    else
      var rest := Drop(order[1..], k);
      DistinctTail(order);
      [order[0]] + rest
  }

  /** `d.pop(k)` keeps the other keys in their order: with `k` once in the
      order, the keys before it and the keys after it close up. */
  lemma {:induction false} DropKeepsOrder(a: seq<string>, b: seq<string>, k: string)
    requires k !in a && k !in b
    ensures Drop(a + [k] + b, k) == a + b
    decreases |a|
  {
    if |a| == 0 {
      assert a + [k] + b == [k] + b;
      DropHead(k, b);
    } else {
      DropKeepsOrder(a[1..], b, k);
      DropStep(a, b, k);
    }
  }

  /** The inductive step of `DropKeepsOrder`: a head other than `k` stays. */
  lemma DropStep(a: seq<string>, b: seq<string>, k: string)
    requires |a| > 0 && a[0] != k
    requires Drop(a[1..] + [k] + b, k) == a[1..] + b
    ensures Drop(a + [k] + b, k) == a + b
  {
    ConsSplit(a, [k], b);
    DropOther(a[0], a[1..] + [k] + b, k);
    ConsSplitTwo(a, b);
  }

  /** Splitting the head off the first of two joined sequences. */
  lemma ConsSplitTwo(a: seq<string>, b: seq<string>)
    requires |a| > 0
    ensures a + b == [a[0]] + (a[1..] + b)
  {
    assert a == [a[0]] + a[1..];
  }

  /** Splitting the head off the first of three joined sequences. */
  lemma ConsSplit(a: seq<string>, m: seq<string>, b: seq<string>)
    requires |a| > 0
    ensures a + m + b == [a[0]] + (a[1..] + m + b)
  {
    assert a == [a[0]] + a[1..];
  }

  /** Dropping the key at the head leaves the rest to drop from. */
  lemma DropHead(k: string, t: seq<string>)
    ensures Drop([k] + t, k) == Drop(t, k)
  {
    assert ([k] + t)[1..] == t;
  }

  /** A key other than `k` at the head stays at the head. */
  lemma DropOther(x: string, t: seq<string>, k: string)
    requires x != k
    ensures Drop([x] + t, k) == [x] + Drop(t, k)
  {
    assert ([x] + t)[1..] == t;
  }

  lemma DistinctTail(s: seq<string>)
    requires |s| > 0
    ensures Distinct(s) ==> Distinct(s[1..]) && s[0] !in s[1..]
  {
    if Distinct(s) {
      forall i, j | 0 <= i < j < |s[1..]| ensures s[1..][i] != s[1..][j] {
        assert s[1..][i] == s[i + 1] && s[1..][j] == s[j + 1];
      }
    }
  }

  lemma UpdateTwice<V>(m: map<string, V>, m': map<string, V>, k: string, a: V, b: V)
    requires m' == m[k := a]
    ensures m'[k := b] == m[k := b]
  {
  }

  lemma PutTwice(order: seq<string>, order': seq<string>, k: string)
    requires order' == Put(order, k)
    ensures Put(order', k) == order'
  {
  }

  /** `list(d.values())` for a store with key order `order`. */
  function ValuesOf(m: map<string, TelegramAccount>, order: seq<string>): (r: seq<TelegramAccount>)
    requires forall k :: k in order ==> k in m
    ensures |r| == |order|
    ensures forall i :: 0 <= i < |order| ==> r[i] == m[order[i]]
  {
    if |order| == 0 then [] else [m[order[0]]] + ValuesOf(m, order[1..])
  }

  /** The record `login_account` works on: the stored one, or a fresh one
      made by `add_account`; a non-empty `apiUrl` replaces its URL. */
  function Prepared(m: map<string, TelegramAccount>, sessionDir: string, p: string, apiUrl: string)
    : (a: TelegramAccount)
    ensures a.apiUrl == (if apiUrl != "" then apiUrl else if p in m then m[p].apiUrl else "")
    ensures p in m ==> a == m[p].(apiUrl := a.apiUrl)
    ensures p !in m ==> a == NewAccount(sessionDir, p, apiUrl)
  {
    var a := if p in m then m[p] else NewAccount(sessionDir, p, apiUrl);
    if apiUrl != "" then a.(apiUrl := apiUrl) else a
  }

  // ---- tdata import -------------------------------------------------------

  /** How the session of one tdata account behaves once converted:
      `Broken` when the conversion, `connect()` or `is_user_authorized()`
      raises; `disconnect` is the error text of `disconnect()`, if it
      raises. */
  datatype TdataSession =
    | Broken(error: string)
    | Unauthorized(disconnect: Option<string>)
    | ProfileFailed(error: string)
    | Authorized(me: Me, disconnect: Option<string>)

  /** One account found in the tdata folder, with its `UserId`. */
  datatype TdataAccount = TdataAccount(userId: int, session: TdataSession)

  /** What opening the tdata folder yields. */
  datatype TdataLoad = PathMissing | LoadFailed(error: string) | Loaded(accounts: seq<TdataAccount>)

  /** The store key of an imported account: `+` and its phone, or `id_`
      and its user id when the profile has no phone. */
  function ImportKey(me: Me): (k: string)
    ensures me.phone != "" ==> StartsWith(k, "+") && k[1..] == me.phone
    ensures me.phone == "" ==> StartsWith(k, "id_") && k[3..] == NatToString(me.id)
  {
    if me.phone != "" then "+" + me.phone else "id_" + NatToString(me.id)
  }

  /** Two imported accounts share a key exactly when they have the same
      phone, or both have none and the same user id. */
  lemma ImportKeyInjective(a: Me, b: Me)
    ensures ImportKey(a) == ImportKey(b) <==>
              a.phone == b.phone && (a.phone == "" ==> a.id == b.id)
  {
    var ka, kb := ImportKey(a), ImportKey(b);
    assert ka[0] == (if a.phone != "" then '+' else 'i');
    assert kb[0] == (if b.phone != "" then '+' else 'i');
    if ka == kb {
      if a.phone != "" && b.phone != "" {
        assert a.phone == ka[1..] == kb[1..] == b.phone;
      } else if a.phone == "" && b.phone == "" {
        assert NatToString(a.id) == ka[3..] == kb[3..] == NatToString(b.id);
        NatToStringInjective(a.id, b.id);
      }
    }
  }

  /** The record stored for an authorised tdata account. */
  function ImportedRecord(sessionDir: string, userId: int, me: Me, now: string): (a: TelegramAccount)
    ensures a.phone == ImportKey(me) && a.loggedIn && a.apiUrl == ""
    ensures EndsWith(a.sessionFile, "tdata_" + IntToString(userId))
  {
    TelegramAccount(ImportKey(me), JoinPath(sessionDir, "tdata_" + IntToString(userId)), "",
                    DisplayName(me.firstName, me.lastName), me.username, me.id, true, now)
  }

  /** The result reported for the `i`-th (from 0) tdata account. */
  function ImportResult(i: nat, t: TdataAccount, sessionDir: string, now: string): (r: (bool, string))
    ensures r.0 <==> t.session.Authorized? && t.session.disconnect.None?
  {
    var failed := "导入账号 " + NatToString(i + 1) + " 失败: ";
    match t.session
    case Broken(e) => (false, failed + e)
    case Unauthorized(None) => (false, "账号 " + IntToString(t.userId) + " 未授权")
    case Unauthorized(Some(e)) => (false, failed + e)
    case ProfileFailed(e) => (false, failed + e)
    case Authorized(me, None) =>
      var a := ImportedRecord(sessionDir, t.userId, me, now);
      (true, "导入成功: " + a.name + " (@" + a.username + ") - " + a.phone)
    case Authorized(_, Some(e)) => (false, failed + e)
  }

  /** The records the import stores, in order: one per authorised account
      whose profile was read, stored even when the disconnect then fails. */
  function Imported(ts: seq<TdataAccount>, sessionDir: string, now: string): (r: seq<TelegramAccount>)
    ensures |r| <= |ts|
    ensures forall a :: a in r ==> a.loggedIn
    decreases |ts|
  {
    if |ts| == 0 then []
    else
      var last := ts[|ts| - 1];
      var before := Imported(ts[..|ts| - 1], sessionDir, now);
      if last.session.Authorized? then before + [ImportedRecord(sessionDir, last.userId, last.session.me, now)]
      else before
  }

  /** The store after writing `recs` one after the other, each under its
      own phone. */
  function StoreAll(m: map<string, TelegramAccount>, recs: seq<TelegramAccount>): map<string, TelegramAccount>
    decreases |recs|
  {
    if |recs| == 0 then m
    else StoreAll(m, recs[..|recs| - 1])[recs[|recs| - 1].phone := recs[|recs| - 1]]
  }

  /** The key order after writing `recs` one after the other. */
  function OrderAll(order: seq<string>, recs: seq<TelegramAccount>): seq<string>
    decreases |recs|
  {
    if |recs| == 0 then order
    else Put(OrderAll(order, recs[..|recs| - 1]), recs[|recs| - 1].phone)
  }

  /** Writing records adds exactly their phones as keys; a key none of them
      carries keeps its old record, and every record stored is an old one
      or one of those written. */
  lemma {:induction false} StoreAllKeys(m: map<string, TelegramAccount>, recs: seq<TelegramAccount>)
    ensures StoreAll(m, recs).Keys == m.Keys + set a | a in recs :: a.phone
    ensures forall k :: k in m && (forall a :: a in recs ==> a.phone != k) ==> StoreAll(m, recs)[k] == m[k]
    ensures forall k :: k in StoreAll(m, recs) ==>
              (k in m && StoreAll(m, recs)[k] == m[k]) || StoreAll(m, recs)[k] in recs
    decreases |recs|
  {
    if |recs| > 0 {
      var init := recs[..|recs| - 1];
      StoreAllKeys(m, init);
      assert recs == init + [recs[|recs| - 1]];
    }
  }

  /** Writing records keeps the old keys in front, in their order, adds
      each new phone once, and never repeats a key. */
  lemma {:induction false} OrderAllKeys(order: seq<string>, recs: seq<TelegramAccount>)
    ensures forall x :: x in OrderAll(order, recs) <==> x in order || exists a :: a in recs && a.phone == x
    ensures Distinct(order) ==> Distinct(OrderAll(order, recs))
    ensures |order| <= |OrderAll(order, recs)| && OrderAll(order, recs)[..|order|] == order
    decreases |recs|
  {
    if |recs| > 0 {
      var init := recs[..|recs| - 1];
      OrderAllKeys(order, init);
      assert recs == init + [recs[|recs| - 1]];
    }
  }

  /** One more tdata account: the stored records grow by its record exactly
      when it was authorised and its profile read. */
  lemma ImportedStep(ts: seq<TdataAccount>, i: nat, sessionDir: string, now: string)
    requires i < |ts|
    ensures Imported(ts[..i + 1], sessionDir, now) ==
            if ts[i].session.Authorized? then
              Imported(ts[..i], sessionDir, now) + [ImportedRecord(sessionDir, ts[i].userId, ts[i].session.me, now)]
            else Imported(ts[..i], sessionDir, now)
  {
    assert ts[..i + 1][..i] == ts[..i];
  }

  /** One more result on the list keeps it the per-account results. */
  lemma ResultsSnoc(results: seq<(bool, string)>, r: (bool, string), ts: seq<TdataAccount>, sessionDir: string, now: string)
    requires |results| < |ts|
    requires forall k :: 0 <= k < |results| ==> results[k] == ImportResult(k, ts[k], sessionDir, now)
    requires r == ImportResult(|results|, ts[|results|], sessionDir, now)
    ensures forall k :: 0 <= k < |results| + 1 ==> (results + [r])[k] == ImportResult(k, ts[k], sessionDir, now)
  {
  }

  /** Writing one more record is one more dictionary assignment. */
  lemma StoreAllSnoc(m: map<string, TelegramAccount>, order: seq<string>, recs: seq<TelegramAccount>, a: TelegramAccount)
    ensures StoreAll(m, recs + [a]) == StoreAll(m, recs)[a.phone := a]
    ensures OrderAll(order, recs + [a]) == Put(OrderAll(order, recs), a.phone)
  {
    assert (recs + [a])[..|recs|] == recs;
  }

  /** An account imported without a phone is stored under `id_<n>`, while
      every normalising entry point looks up a key starting with `+`: no
      input to `get_account`, `remove_account` or `get_client` reaches it. */
  lemma IdKeyUnreachable(me: Me, phone: string)
    requires me.phone == ""
    ensures NormalizePhone(phone) != ImportKey(me)
  {
    assert ImportKey(me)[0] == 'i';
  }

  /** Which client class `get_client` opens a session with: the desktop
      one for a session file from a tdata import, when that library loaded. */
  function KindFor(openteleAvailable: bool, sessionFile: string): (k: ClientKind)
    ensures k == DesktopClient <==> openteleAvailable && Contains(sessionFile, "tdata_")
  {
    if openteleAvailable && Contains(sessionFile, "tdata_") then DesktopClient else StandardClient
  }

  /** What `get_client` returns for the normalised key `p`, given what the
      probe says about the cached client and about a fresh connection. */
  function LookupFor(openteleAvailable: bool, accounts: map<string, TelegramAccount>,
                     clients: map<string, Client>, p: string, probe: ClientProbe): (r: Lookup)
    ensures r.Hit? ==> (p in clients && r.client == clients[p]) || p in accounts
    ensures r.LookupRaised? ==> p in accounts && probe.connect == Raised(r.error)
    ensures p !in accounts && p !in clients ==> r == Miss
    ensures p in clients && probe.cachedConnected ==> r == Hit(clients[p])
    ensures r.Hit? && !(p in clients && probe.cachedConnected) ==>
              p in accounts && probe.connect.Done? && probe.authorized
              && r.client == Client(accounts[p].sessionFile, KindFor(openteleAvailable, accounts[p].sessionFile))
    ensures !(p in clients && probe.cachedConnected) && p in accounts && probe.connect.Done? ==>
              (r.Hit? <==> probe.authorized) && (r.Miss? <==> !probe.authorized)
  {
    if p in clients && probe.cachedConnected then Hit(clients[p])
    else if p !in accounts then Miss
    else if probe.connect.Raised? then LookupRaised(probe.connect.error)
    else if probe.authorized then
      Hit(Client(accounts[p].sessionFile, KindFor(openteleAvailable, accounts[p].sessionFile)))
    else Miss
  }

  /** The client cache after `get_client`: a client it returns is cached
      under `p`, and no other entry changes. */
  function CacheAfter(openteleAvailable: bool, accounts: map<string, TelegramAccount>,
                      clients: map<string, Client>, p: string, probe: ClientProbe): (r: map<string, Client>)
    ensures LookupFor(openteleAvailable, accounts, clients, p, probe).Hit? ==>
              p in r && r[p] == LookupFor(openteleAvailable, accounts, clients, p, probe).client
    ensures forall q :: q != p ==> (q in r <==> q in clients)
    ensures forall q :: q != p && q in r ==> r[q] == clients[q]
    ensures p in clients ==> p in r
    ensures LookupFor(openteleAvailable, accounts, clients, p, probe).Hit? ==>
              r == clients[p := LookupFor(openteleAvailable, accounts, clients, p, probe).client]
    ensures !LookupFor(openteleAvailable, accounts, clients, p, probe).Hit? ==> r == clients
  {
    if p in clients && probe.cachedConnected then
      assert clients[p := clients[p]] == clients;
      clients
    else if p in accounts && probe.connect.Done? && probe.authorized then
      clients[p := Client(accounts[p].sessionFile, KindFor(openteleAvailable, accounts[p].sessionFile))]
    else clients
  }

  class AccountManager {
    const sessionDir: string
    const openteleAvailable: bool
    const openteleError: string
    /** The stored accounts, by key. */
    var accounts: map<string, TelegramAccount>
    /** The keys of `accounts` in insertion order. */
    var order: seq<string>
    /** The cached clients, by normalised phone. */
    var clients: map<string, Client>

    ghost predicate Valid()
      reads this
    {
      && Distinct(order)
      && (forall k :: k in accounts <==> k in order)
      && (forall k :: k in accounts ==> accounts[k].phone == k)
    }

    /** A manager with an empty store; loading the accounts file is not
        part of this model. */
    constructor(sessionDir: string, openteleAvailable: bool, openteleError: string)
      ensures Valid()
      ensures this.sessionDir == sessionDir && this.openteleAvailable == openteleAvailable
      ensures this.openteleError == openteleError
      ensures accounts == map[] && order == [] && clients == map[]
    {
      this.sessionDir := sessionDir;
      this.openteleAvailable := openteleAvailable;
      this.openteleError := openteleError;
      accounts := map[];
      order := [];
      clients := map[];
    }

    /** `accounts[a.phone] = a`: the record goes under its own phone; a new
        key goes last, an existing key keeps its place. */
    method Store(a: TelegramAccount)
      requires Valid()
      modifies this
      ensures Valid()
      ensures accounts == old(accounts)[a.phone := a]
      ensures order == Put(old(order), a.phone)
      ensures clients == old(clients)
    {
      accounts := accounts[a.phone := a];
      order := Put(order, a.phone);
    }

    /** `add_account`: a fresh record under the normalised phone, replacing
        any record already there. */
    method AddAccount(phone: string, apiUrl: string) returns (a: TelegramAccount)
      requires Valid()
      modifies this
      ensures Valid()
      ensures a == NewAccount(sessionDir, NormalizePhone(phone), apiUrl)
      ensures accounts == old(accounts)[NormalizePhone(phone) := a]
      ensures order == Put(old(order), NormalizePhone(phone))
      ensures clients == old(clients)
    {
      a := NewAccount(sessionDir, NormalizePhone(phone), apiUrl);
      Store(a);
    }

    /** `get_account`: the record under the normalised phone, if any. */
    method GetAccount(phone: string) returns (r: Option<TelegramAccount>)
      requires Valid()
      ensures r.Some? <==> NormalizePhone(phone) in accounts
      ensures r.Some? ==> r.value == accounts[NormalizePhone(phone)] && r.value.phone == NormalizePhone(phone)
    {
      var p := NormalizePhone(phone);
      r := if p in accounts then Some(accounts[p]) else None;
    }

    /** `list_accounts`: every record, in insertion order. */
    method ListAccounts() returns (r: seq<TelegramAccount>)
      requires Valid()
      ensures |r| == |order|
      ensures forall i :: 0 <= i < |r| ==> r[i] == accounts[order[i]] && r[i].phone == order[i]
      ensures forall a :: a in accounts.Values ==> a in r
    {
      r := ValuesOf(accounts, order);
      forall a | a in accounts.Values ensures a in r {
        var k :| k in accounts && accounts[k] == a;
        var i :| 0 <= i < |order| && order[i] == k;
        assert r[i] == a;
      }
    }

    /** `remove_account`: drop the normalised key, if present; every other
        record and the client cache are left as they are. */
    method RemoveAccount(phone: string)
      requires Valid()
      modifies this
      ensures Valid()
      ensures accounts == old(accounts) - {NormalizePhone(phone)}
      ensures order == Drop(old(order), NormalizePhone(phone))
      ensures clients == old(clients)
    {
      var p := NormalizePhone(phone);
      if p in accounts {
        accounts := accounts - {p};
        order := Drop(order, p);
      } else {
        assert p !in order;
      }
    }

    /** `get_client`: the cached client when it is still connected; else,
        for a known account, a new client, cached and returned only when it
        is authorised. An exception of `connect()` propagates. */
    method GetClient(phone: string, probe: ClientProbe) returns (r: Lookup)
      requires Valid()
      modifies this
      ensures Valid()
      ensures accounts == old(accounts) && order == old(order)
      ensures r == LookupFor(openteleAvailable, old(accounts), old(clients), NormalizePhone(phone), probe)
      ensures clients == CacheAfter(openteleAvailable, old(accounts), old(clients), NormalizePhone(phone), probe)
    {
      var p := NormalizePhone(phone);
      if p in clients && probe.cachedConnected {
        return Hit(clients[p]);
      }
      if p !in accounts {
        return Miss;
      }
      var account := accounts[p];
      var client := Client(account.sessionFile, KindFor(openteleAvailable, account.sessionFile));
      if probe.connect.Raised? {
        return LookupRaised(probe.connect.error);
      }
      if probe.authorized {
        clients := clients[p := client];
        return Hit(client);
      }
      return Miss;
    }

    /** `close_all`: every client is disconnected (errors ignored) and the
        cache emptied. */
    method CloseAll()
      requires Valid()
      modifies this
      ensures Valid()
      ensures clients == map[]
      ensures accounts == old(accounts) && order == old(order)
    {
      clients := map[];
    }

    /** The first steps of `login_account` for the normalised phone `p`:
        add the account when it is absent (`add_account` normalises `p`
        again, which leaves it as it is, see `NormalizeIdempotent`), then
        take over a non-empty URL. */
    method PrepareAccount(p: string, apiUrl: string) returns (account: TelegramAccount)
      requires Valid()
      modifies this
      ensures Valid()
      ensures account == Prepared(old(accounts), sessionDir, p, apiUrl) && account.phone == p
      ensures accounts == old(accounts)[p := account]
      ensures order == Put(old(order), p) && clients == old(clients)
    {
      if p !in accounts {
        Store(NewAccount(sessionDir, p, apiUrl));
      }
      account := accounts[p];
      if apiUrl != "" {
        account := account.(apiUrl := apiUrl);
        Store(account);
      }
    }

    /** `login_account`: make sure the record exists, take over a non-empty
        URL, run the login, and on success write the profile and cache the
        client. */
    method LoginAccount(phone: string, apiUrl: string, manualCode: string, manual2fa: string,
                        s: Login.LoginScript, now: string)
      returns (ok: bool, message: string)
      requires Valid()
      modifies this
      ensures Valid()
      ensures LoginEffect(NormalizePhone(phone), apiUrl, manualCode, manual2fa, s, now, ok, message)
    {
      var p := NormalizePhone(phone);
      var account := PrepareAccount(p, apiUrl);
      ghost var prepared := accounts;
      ghost var preparedOrder := order;
      var run := Login.Run(account.apiUrl, manualCode, manual2fa, s);
      ok, message := Conclude(p, account, run, now);
      UpdateTwice(old(accounts), prepared, p, account, accounts[p]);
      PutTwice(old(order), preparedOrder, p);
    }

    /** The state and answer of `login_account` for the normalised phone
        `p`, in terms of the login run. */
    twostate predicate LoginEffect(p: string, apiUrl: string, manualCode: string, manual2fa: string,
                                   s: Login.LoginScript, now: string, ok: bool, message: string)
      reads this
    {
      var before := Prepared(old(accounts), sessionDir, p, apiUrl);
      var run := Login.Run(before.apiUrl, manualCode, manual2fa, s);
      && ok == run.Ok()
      && order == Put(old(order), p)
      && accounts == old(accounts)[p := if ok then WithProfile(before, run.outcome.me, now) else before]
      && clients == (if ok then old(clients)[p := Client(before.sessionFile, StandardClient)] else old(clients))
      && message == Login.Message(run.outcome, accounts[p])
    }

    /** The end of `login_account` once the run is known: on success the
        profile is written and the client cached. */
    method Conclude(p: string, account: TelegramAccount, run: Login.LoginRun, now: string)
      returns (ok: bool, message: string)
      requires Valid() && account.phone == p
      modifies this
      ensures Valid()
      ensures ok == run.Ok() && order == Put(old(order), p)
      ensures accounts == old(accounts)[p := if ok then WithProfile(account, run.outcome.me, now) else account]
      ensures clients == if ok then old(clients)[p := Client(account.sessionFile, StandardClient)] else old(clients)
      ensures message == Login.Message(run.outcome, accounts[p])
    {
      var result := account;
      if run.Ok() {
        result := WithProfile(account, run.outcome.me, now);
        clients := clients[p := Client(account.sessionFile, StandardClient)];
      }
      Store(result);
      ok := run.Ok();
      message := Login.Message(run.outcome, result);
    }

    /** Account `i` of a loaded tdata folder: stored when it is authorised,
        and its result line. */
    method ImportOne(ts: seq<TdataAccount>, i: nat, now: string,
                     ghost accounts0: map<string, TelegramAccount>, ghost order0: seq<string>)
      returns (r: (bool, string))
      requires Valid() && i < |ts|
      requires accounts == StoreAll(accounts0, Imported(ts[..i], sessionDir, now))
      requires order == OrderAll(order0, Imported(ts[..i], sessionDir, now))
      modifies this
      ensures Valid()
      ensures clients == old(clients)
      ensures r == ImportResult(i, ts[i], sessionDir, now)
      ensures accounts == StoreAll(accounts0, Imported(ts[..i + 1], sessionDir, now))
      ensures order == OrderAll(order0, Imported(ts[..i + 1], sessionDir, now))
    {
      var t := ts[i];
      ImportedStep(ts, i, sessionDir, now);
      if t.session.Authorized? {
        var a := ImportedRecord(sessionDir, t.userId, t.session.me, now);
        StoreAllSnoc(accounts0, order0, Imported(ts[..i], sessionDir, now), a);
        Store(a);
      }
      r := ImportResult(i, t, sessionDir, now);
    }

    /** `import_from_tdata` for the folder `path`: one result per account
        found, each account isolated from the others' failures; every
        authorised account whose profile was read is stored. */
    method ImportFromTdata(path: string, load: TdataLoad, now: string)
      returns (results: seq<(bool, string)>)
      requires Valid()
      modifies this
      ensures Valid()
      ensures clients == old(clients)
      ensures !openteleAvailable ==>
                results == [(false, "opentele 不可用: " + openteleError + "。请使用其他登录方式（选项1或2）")]
      ensures openteleAvailable && load.PathMissing? ==> results == [(false, "tdata 路径不存在: " + path)]
      ensures openteleAvailable && load.LoadFailed? ==> results == [(false, "加载 tdata 失败: " + load.error)]
      ensures !(openteleAvailable && load.Loaded?) ==> accounts == old(accounts) && order == old(order)
      ensures openteleAvailable && load.Loaded? ==>
                && |results| == |load.accounts|
                && (forall i :: 0 <= i < |results| ==>
                      results[i] == ImportResult(i, load.accounts[i], sessionDir, now))
                && accounts == StoreAll(old(accounts), Imported(load.accounts, sessionDir, now))
                && order == OrderAll(old(order), Imported(load.accounts, sessionDir, now))
    {
      if !openteleAvailable {
        return [(false, "opentele 不可用: " + openteleError + "。请使用其他登录方式（选项1或2）")];
      }
      match load
      case PathMissing =>
        results := [(false, "tdata 路径不存在: " + path)];
      case LoadFailed(e) =>
        results := [(false, "加载 tdata 失败: " + e)];
      case Loaded(ts) =>
        results := ImportAll(ts, now);
    }

    /** The loop over the loaded accounts: one result per account, in order. */
    method ImportAll(ts: seq<TdataAccount>, now: string) returns (results: seq<(bool, string)>)
      requires Valid()
      modifies this
      ensures Valid()
      ensures clients == old(clients)
      ensures |results| == |ts|
      ensures forall i :: 0 <= i < |results| ==> results[i] == ImportResult(i, ts[i], sessionDir, now)
      ensures accounts == StoreAll(old(accounts), Imported(ts, sessionDir, now))
      ensures order == OrderAll(old(order), Imported(ts, sessionDir, now))
    {
      results := [];
      var i := 0;
      while i < |ts|
        invariant 0 <= i <= |ts|
        invariant Valid()
        invariant clients == old(clients)
        invariant |results| == i
        invariant forall k :: 0 <= k < i ==> results[k] == ImportResult(k, ts[k], sessionDir, now)
        invariant accounts == StoreAll(old(accounts), Imported(ts[..i], sessionDir, now))
        invariant order == OrderAll(old(order), Imported(ts[..i], sessionDir, now))
      {
        var r := ImportOne(ts, i, now, old(accounts), old(order));
        ResultsSnoc(results, r, ts, sessionDir, now);
        results := results + [r];
        i := i + 1;
      }
      assert ts[..i] == ts;
    }
  }
}
