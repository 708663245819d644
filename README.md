# Telegram multi-account sender, modelled in Dafny

This project models the core of a desktop tool. The tool keeps several Telegram accounts and sends one message (or a voice note) to many targets through them. The model covers these parts:

- **The account store** (`AccountManager`). Records are kept under a normalised phone number, in dictionary insertion order. Beside them is a cache of connected clients. The model covers adding, looking up, listing and removing accounts, the cached client lookup, closing every client, the login state machine and the import of Telegram Desktop (tdata) sessions.
- **The page scrapers** that read a login code or a 2FA password out of a fetched page. Their two regular expressions are written out as leftmost searches with the engine's backtracking.
- **The senders** (`MultiSender`): from one account, from every logged-in account, and from one account to many targets, plus the batch over several accounts.
- **The window's logic.** This covers the account cards and the selected set, the target-list parser, the checks made before a send starts, the status check and its error classification, the round-robin send loop with its stop flag and pauses, and the completion tallies.
- **The updater.** This covers version comparison (split on `.`, `int` each part, pad with zeros, compare as lists), the tag normalisation and the choice of the first `.exe` asset of a release.

Every call into the Telegram client library, every HTTP request, the user's typed input and the stop button are inputs to the model ("scripts"). The model says what the program does with each possible answer. Files, in import order:

| file | contents |
|---|---|
| text.dfy | Python string operations: `strip`, `split`, `split(sep, 1)`, `lstrip`, `replace`, `lower`, `str(n)` |
| protocol.dfy | the answers of the client library and of an HTTP fetch |
| accounts.dfy | the account record, phone normalisation, session-file naming, `parse_account_config` |
| scanner.dfy | the code and 2FA scanners and the two fetch helpers |
| login.dfy | the decision logic of `login_account` |
| manager.dfy | class `AccountManager` |
| dispatch.dfy | class `MultiSender` |
| gui_logic.dfy | target parsing, send guards, status classification, log lines, tallies |
| gui.dfy | classes `AccountCard` and `SenderWindow` (the window's handlers and loops) |
| updater.dfy | version parsing and comparison, class `AutoUpdater` |

## Model

| member | source | states |
|---|---|---|
| Text.Strip | telegram_multi_sender.py:136 | `strip()` leaves no whitespace at either end and never lengthens the text |
| Text.StripIdempotent | telegram_multi_sender.py:136 | stripping twice is stripping once |
| Text.StripEmptyIsBlank | telegram_multi_sender_gui.py:1110-1111 | only an all-whitespace line strips to "" |
| Text.Split | updater.py:73-74 | `split('.')` gives at least one piece, no piece holds the separator, and joining the pieces gives the text back |
| Text.SplitJoin | updater.py:73-74 | splitting pieces that hold no separator, once joined, gives the same pieces |
| Text.SplitSnoc | updater.py:73-74 | a last piece without the separator splits off as its own last piece |
| Text.SplitOnce | telegram_multi_sender.py:512 | splitting once at the bar: one piece exactly when there is no bar; otherwise the text is the first piece, the bar, then the rest, and the first piece has no bar |
| Text.SplitOnceAt | telegram_multi_sender.py:512 | the cut is made at the first separator |
| Text.LStripChar | updater.py:55 | `lstrip('v')` drops only leading `v`s, and the result does not start with `v` |
| Text.RemoveChar | telegram_multi_sender.py:123 | `replace('+', '')` leaves no `+`, keeps every other character as often as it occurred, and changes nothing in text without one |
| Text.RemoveCharAppend | telegram_multi_sender.py:123 | removal works piece by piece (text split anywhere loses its `+` in each piece), so every other character keeps its place in order |
| Text.Lower | telegram_multi_sender_gui.py:1066 | `lower()` maps each character on its own and keeps the length |
| Text.NatToString | telegram_multi_sender.py:263 | `str(n)` is a run of digits whose decimal value is `n`: one digit for `n < 10`, otherwise at least two with no leading zero |
| Text.DecimalSnoc | telegram_multi_sender.py:263 | one more digit at the end shifts the decimal value one place |
| Text.NatToStringInjective | telegram_multi_sender.py:247 | different numbers print differently (a consequence of the decimal-value clause of `NatToString`) |
| Accounts.NormalizePhone | telegram_multi_sender.py:134-139 | the normalised phone always starts with `+` |
| Accounts.NormalizeShape | telegram_multi_sender.py:134-139 | the result is the trimmed input, with `+` put in front exactly when the trimmed input does not start with `+`; it has no whitespace at either end |
| Accounts.NormalizeAll | telegram_multi_sender.py:309 | a list of phones is normalised position by position, as `get_client` normalises each one |
| Accounts.NormalizeIdempotent | telegram_multi_sender.py:134-139 | normalising twice is normalising once |
| Accounts.NormalizeIgnoresPlusAndSpace | telegram_multi_sender.py:141-158 | `" 123"` and `"+123"` address the same key |
| Accounts.JoinPath | telegram_multi_sender.py:123 | `os.path.join(dir, name)` ends with `name` |
| Accounts.SessionFileNamedAfterPhone | telegram_multi_sender.py:123 | the session file ends with the phone with every `+` removed, and that name holds no `+` |
| Accounts.NewAccount | telegram_multi_sender.py:123-129 | the new record has the phone, that session file and the URL; its name and username are empty, user id 0, not logged in |
| Accounts.WithProfile | telegram_multi_sender.py:236-240 | the profile fields come from `get_me()`; phone, session file and URL stay |
| Accounts.ParseAccountConfig | telegram_multi_sender.py:506-515 | both halves are trimmed, the phone holds no bar, and a line without a bar gives the whole trimmed line and "" |
| Accounts.ParseAccountConfigSplit | telegram_multi_sender.py:506-515 | for any line with a bar, the phone is the text before the first bar and the URL the text after it, each stripped; with the no-bar clause of `ParseAccountConfig` this fixes the result for every line |
| Text.StripFrom | telegram_multi_sender.py:512 | dropping leading whitespace does not change what `strip()` gives |
| Text.StripUpTo | telegram_multi_sender.py:512 | dropping trailing whitespace does not change what `strip()` gives |
| Accounts.ParseAccountConfigRoundTrip | telegram_multi_sender.py:512-515 | a phone, a bar and a URL parse back to `(phone, url)` for a trimmed phone without a bar and a trimmed URL |
| Scanner.SepRun | telegram_multi_sender.py:269 | the longest run of `[:\s]` from a position |
| Scanner.DigitRun | telegram_multi_sender.py:269-270 | the longest run of digits from a position |
| Scanner.TokenRun | telegram_multi_sender.py:294 | the longest run of `[^\s<]` from a position |
| Scanner.DigitsAt | telegram_multi_sender.py:269-270 | `\d{5,6}` matches exactly where at least five digits start, and takes five or six digits found at that place |
| Scanner.DigitsAtShape | telegram_multi_sender.py:269-270 | a `\d{5,6}` match is five or six digits that occur in the page |
| Scanner.LabelledAt | telegram_multi_sender.py:269 | a labelled match is 5 to 6 digits found in the page |
| Scanner.LabelledStart | telegram_multi_sender.py:269 | a labelled match is the digit group found where the keyword and separators end |
| Scanner.LabelledShape | telegram_multi_sender.py:269 | a labelled match is 5 to 6 digits of the page, and five digits stand together somewhere |
| Scanner.BareAt | telegram_multi_sender.py:270 | the bare pattern matches exactly where five digits start |
| Scanner.TokenStart | telegram_multi_sender.py:294 | the backtracking of `[:\s]*`: the longest separator prefix after which a token can start, and none longer |
| Scanner.SepsWithinRun | telegram_multi_sender.py:294 | no run of `[:\s]` at a position is longer than the greedy one |
| Scanner.PasswordAt | telegram_multi_sender.py:294 | the 2FA pattern matches only after a keyword, exactly when some run of separators is followed by a token character, and yields a non-empty run of `[^\s<]` found in the page |
| Scanner.Leftmost | telegram_multi_sender.py:273-276 | `re.search`: the leftmost position where the pattern matches, and no match before it; nothing exactly when no position matches |
| Scanner.ScanCode | telegram_multi_sender.py:268-278 | a labelled match anywhere wins, at its leftmost place; otherwise the leftmost bare run; nothing exactly when no five digits stand together; the code is 5 to 6 digits of the page |
| Scanner.LabelledLeftmost | telegram_multi_sender.py:273-276 | the labelled search's result is the match at the first position where the pattern matches |
| Scanner.NoLabelled | telegram_multi_sender.py:273-277 | a failed labelled search means no position matches |
| Scanner.NoBare | telegram_multi_sender.py:273-278 | a failed bare search means no five digits stand together |
| Scanner.BareLeftmost | telegram_multi_sender.py:273-276 | the bare search finds the first place where five digits stand together, and its result is 5 to 6 digits of the page |
| Scanner.ScanPassword | telegram_multi_sender.py:293-302 | a password exactly when the pattern matches somewhere; it is non-empty and holds no whitespace and no `<` |
| Scanner.FetchCode | telegram_multi_sender.py:255-281 | an exception's text; `HTTP <status>` for a status other than 200; a 5-to-6-digit code exactly when the scanner finds one, else "未找到验证码" |
| Scanner.FetchPassword | telegram_multi_sender.py:283-305 | as FetchCode, with a non-empty password or "未找到2FA密码" |
| Login.FailureMessageInjective | telegram_multi_sender.py:246-253 | the flood-wait, expired, invalid, generic, fetch-failed and no-code failures each have their own message, so the message determines the failure |
| Login.ResolveCode | telegram_multi_sender.py:205-213 | the manual code first; else the URL, whose error ends the attempt; else the prompt's trimmed line |
| Login.ResolvePassword | telegram_multi_sender.py:222-230 | the manual password first; else the URL, falling back to the prompt when the fetch fails or is empty; else the prompt |
| Login.Run | telegram_multi_sender.py:185-253 | every attempt starts with `connect()`. An authorised session makes no code request and succeeds exactly when `get_me()` answers. A code is requested exactly when the session is connected and not authorised. Success always ends with `get_me()` |
| Login.CodeStage | telegram_multi_sender.py:205-244 | after the code request, no connect, authorisation check or second request happens; a fetch error fails with that error, an empty code fails as "no code", and otherwise the attempt ends exactly as `SignInStage` does with the resolved code; success ends with `get_me()` |
| Login.CodeSourcePriority | telegram_multi_sender.py:205-216 | a manual code means no fetch and no prompt, and only that code is submitted. A URL means no prompt. A failed fetch fails the attempt at once. An empty prompt fails with no code |
| Login.CodeStageSubmitsResolvedCode | telegram_multi_sender.py:215-219 | only the resolved code is submitted, never empty, and it is submitted exactly when it was obtained without error |
| Login.SignInStage | telegram_multi_sender.py:218-244 | a 2FA challenge is answered with the password ResolvePassword chooses, after its fetch and prompt; without one, no password is asked for or sent |
| Login.Finish | telegram_multi_sender.py:235 | the closing `get_me()` is made, and the attempt succeeds exactly when it answers |
| Manager.Put | telegram_multi_sender.py:130 | `d[k] = v` on the key order: a new key goes last, an existing key keeps its place, and no key repeats |
| Manager.Drop | telegram_multi_sender.py:154 | `d.pop(k)` on the key order: the other keys, none lost and none added |
| Manager.DropKeepsOrder | telegram_multi_sender.py:154 | removing a key keeps the keys before it and after it in their order |
| Manager.ValuesOf | telegram_multi_sender.py:146-148 | `list(d.values())` follows the key order |
| Manager.Prepared | telegram_multi_sender.py:176-181 | the stored record or a fresh one; a non-empty URL replaces its URL |
| Manager.ImportKey | telegram_multi_sender.py:394 | an imported account's key is `+` followed by its phone, or `id_` followed by its id in decimal when it has no phone |
| Manager.ImportKeyInjective | telegram_multi_sender.py:394 | two imported accounts get the same key exactly when they have the same phone, or both have none and the same id |
| Manager.ImportedRecord | telegram_multi_sender.py:380-405 | the imported record is logged in, is stored under its key, and its session file ends with `tdata_<UserId>` |
| Manager.ImportResult | telegram_multi_sender.py:392-425 | an account reports success exactly when it was authorised and its disconnect went through |
| Manager.Imported | telegram_multi_sender.py:392-407 | the import stores at most one record per account, all logged in |
| Manager.StoreAllKeys | telegram_multi_sender.py:407 | the import adds exactly the imported keys, and other records are kept |
| Manager.OrderAllKeys | telegram_multi_sender.py:407 | old keys keep their place in front, and no key repeats |
| Manager.ImportedStep | telegram_multi_sender.py:374-428 | each tdata account adds its record exactly when it was authorised |
| Manager.StoreAllSnoc | telegram_multi_sender.py:407 | one more imported record is one more dictionary assignment |
| Manager.IdKeyUnreachable | telegram_multi_sender.py:394 | an account imported without a phone cannot be reached through any normalising entry point |
| Manager.KindFor | telegram_multi_sender.py:321-325 | the desktop client class is used exactly for tdata sessions when that library loaded |
| Manager.LookupFor | telegram_multi_sender.py:307-332 | the cached client when it is connected; nothing for an unknown phone; an exception only for a known phone whose `connect()` raised; a new client only for a known account |
| Manager.CacheAfter | telegram_multi_sender.py:311-330 | a returned client is cached under the phone; no other entry changes |
| Manager.AccountManager.constructor | telegram_multi_sender.py:95-98 | an empty store and cache |
| Manager.AccountManager.Store | telegram_multi_sender.py:130 | the record goes under its own phone; nothing else changes |
| Manager.AccountManager.AddAccount | telegram_multi_sender.py:120-132 | the fresh record replaces any record under the normalised phone; other keys and the cache are kept |
| Manager.AccountManager.GetAccount | telegram_multi_sender.py:141-144 | a record exactly when the normalised phone is stored, and then that record |
| Manager.AccountManager.ListAccounts | telegram_multi_sender.py:146-148 | every record once, in insertion order |
| Manager.AccountManager.RemoveAccount | telegram_multi_sender.py:150-158 | only the normalised key leaves the store; removing an absent phone changes nothing |
| Manager.AccountManager.GetClient | telegram_multi_sender.py:307-332 | the answer is LookupFor and the cache becomes CacheAfter; the store is unchanged |
| Manager.AccountManager.CloseAll | telegram_multi_sender.py:334-341 | the cache is empty and the store unchanged |
| Manager.AccountManager.PrepareAccount | telegram_multi_sender.py:173-181 | the record exists under the phone afterwards, with the URL taken over |
| Manager.AccountManager.LoginAccount | telegram_multi_sender.py:160-253 | the answer is the login run's outcome and message; on success the profile is written and a standard client cached; on failure only the prepared record remains |
| Manager.AccountManager.Conclude | telegram_multi_sender.py:234-244 | on success the profile is written and the client cached; the message matches the outcome |
| Manager.AccountManager.ImportFromTdata | telegram_multi_sender.py:343-435 | the fixed errors when the library is missing, the path is missing or the load fails, with the store unchanged; otherwise one result per account in order, and the store and key order grow by the imported records |
| Manager.AccountManager.ImportAll | telegram_multi_sender.py:374-427 | the loop over the loaded accounts: one result per account, in order, each the `ImportResult` of that account; the store and the key order grow by the records of the authorised accounts and the client cache is untouched |
| Dispatch.SendOutcome | telegram_multi_sender.py:444-454 | an exception exactly when the lookup raised; success exactly when there is a client and the send went through |
| Dispatch.SendMessagesDistinct | telegram_multi_sender.py:448-454 | the not-logged-in, sent and failed messages never coincide |
| Dispatch.LoggedInKeys | telegram_multi_sender.py:460-462 | the keys kept are exactly the logged-in keys of the order, no more than the order holds |
| Dispatch.LoggedInKeysStep | telegram_multi_sender.py:460-462 | one more key of the order is kept exactly when its account is logged in, at the end |
| Dispatch.LoggedInKeysAppend | telegram_multi_sender.py:460-462 | the loop keeps the dictionary order: the logged-in keys of two runs of keys are those of the first followed by those of the second |
| Dispatch.ReportsKeysExtend | telegram_multi_sender.py:464-465 | appending a record for one more key keeps the records matched to the keys one to one |
| Dispatch.SendPrefixRecords | telegram_multi_sender.py:456-470 | unless an exception ended it, one record per logged-in account, in key order and under its key; a success carries the success message |
| Dispatch.SendStepRecords | telegram_multi_sender.py:460-465 | a turn that raises nothing appends one record, matched to its key, exactly when the account is logged in, and otherwise leaves the records alone |
| Dispatch.SendPrefixStops | telegram_multi_sender.py:456-470 | after an exception no later account adds a record or touches the cache |
| Dispatch.MultiSender.constructor | telegram_multi_sender.py:441-442 | the sender works on the given manager |
| Dispatch.MultiSender.SendFromAccount | telegram_multi_sender.py:444-454 | outcome and cache as AccountSend gives them; the store is unchanged |
| Dispatch.MultiSender.SendFromAll | telegram_multi_sender.py:456-470 | the records, the cache and any exception are those of SendPrefix over the whole key order |
| Dispatch.MultiSender.Turn | telegram_multi_sender.py:460-465 | one loop turn: skip a logged-out account, else send and record |
| Dispatch.MultiSender.NextTurn | telegram_multi_sender.py:460-465 | turn `i` of the loop takes the progress after `i` keys to the progress after `i + 1` keys; the store is unchanged |
| Dispatch.MultiSender.SendToMultiple | telegram_multi_sender.py:472-491 | the lookup's exception propagates; no client gives `[]`; otherwise one `(target, sent)` pair per target, in order, past failures |
| Dispatch.MultiSender.BatchSend | telegram_multi_sender.py:493-503 | every account is served in order, each looked up against the cache the accounts before it left; the batch stops at the first lookup that raises, with that error, and the cache it leaves is that of `BatchPrefix` over the plan |
| Dispatch.MultiSender.NextBatch | telegram_multi_sender.py:501-503 | one plan entry takes the batch from `BatchPrefix` after `j` entries to `BatchPrefix` after `j + 1` |
| Dispatch.BatchStopsAt | telegram_multi_sender.py:501-503 | the entry where the batch stops raised in its lookup against the cache before it, with connecting raising; no earlier entry raised and the rest of the plan changes nothing |
| Dispatch.BatchPrefixStops | telegram_multi_sender.py:501-503 | an exception ends the batch for good: longer prefixes are unchanged |
| Dispatch.BatchPrefixNoneBefore | telegram_multi_sender.py:501-503 | a batch that has not raised after `n` entries had not raised after any fewer |
| GuiLogic.DropAt | telegram_multi_sender_gui.py:1112-1113 | one leading `@` is removed, and only that |
| GuiLogic.TargetsOf | telegram_multi_sender_gui.py:1108-1114 | at most one target per line |
| GuiLogic.TargetsOfAppend | telegram_multi_sender_gui.py:1109-1114 | parsing goes line by line, in order |
| GuiLogic.TargetsFromLines | telegram_multi_sender_gui.py:1109-1114 | every target is a non-blank line, trimmed, with at most one `@` removed |
| GuiLogic.NonBlankLineYieldsTarget | telegram_multi_sender_gui.py:1109-1114 | every non-blank line yields its target |
| GuiLogic.ParseTargetsNonEmpty | telegram_multi_sender_gui.py:1103-1116 | non-blank text always yields a target |
| GuiLogic.StartSend | telegram_multi_sender_gui.py:1096-1130 | a send starts exactly when an account is selected, the targets are not blank and parse to something, there is a message or a voice file, and the voice file exists; the warnings come in the source's order |
| GuiLogic.StartSendNeverInvalid | telegram_multi_sender_gui.py:1116-1118 | the "invalid targets" warning is unreachable, and a started send has accounts and targets |
| GuiLogic.ProbeErrorStatus | telegram_multi_sender_gui.py:1065-1072 | a dialog-probe error gives frozen exactly for a ban without "flood", restricted otherwise |
| GuiLogic.OuterErrorStatus | telegram_multi_sender_gui.py:1077-1084 | another error gives frozen exactly for a ban, otherwise offline exactly when it mentions "auth" and restricted when it does not |
| GuiLogic.ErrorStatusIgnoresCase | telegram_multi_sender_gui.py:1066 | the classification looks at lower-cased text |
| GuiLogic.ErrorStatusPriority | telegram_multi_sender_gui.py:1067-1080 | "flood" is checked first in a probe error, a ban first in other errors |
| GuiLogic.CheckStatus | telegram_multi_sender_gui.py:1054-1084 | online exactly when there is a client, a profile and a working dialog probe; no client or no profile means offline; a raising lookup or profile call is classified by `OuterErrorStatus`, a failing probe by `ProbeErrorStatus`; never unknown or checking |
| GuiLogic.FrozenOnlyOnBan | telegram_multi_sender_gui.py:1069-1080 | frozen only when some error text names a ban |
| GuiLogic.LogLineShape | telegram_multi_sender_gui.py:1168-1171 | the log line names the account and the target, marks success by its word, and carries the error only on a failure that has one |
| GuiLogic.CountSplit | telegram_multi_sender_gui.py:1326-1327 | successes plus failures is the number of results |
| GuiLogic.Tally | telegram_multi_sender_gui.py:1293-1294 | the failures computed as the rest are exactly the results that failed |
| GuiLogic.StatusCountsBounded | telegram_multi_sender_gui.py:1309-1310 | online plus restricted never exceeds the accounts checked, and reaches it exactly when every account is in one of those two states |
| Gui.AccountCard.constructor | telegram_multi_sender_gui.py:204-208 | a new card is unselected and shows an unknown status |
| Gui.AccountCard.ToggleSelect | telegram_multi_sender_gui.py:305-307 | the selection flips; the status stays |
| Gui.AccountCard.SetSelected | telegram_multi_sender_gui.py:309-311 | the selection is set; the status stays |
| Gui.AccountCard.SetStatus | telegram_multi_sender_gui.py:325-326 | the status is set; the selection stays |
| Gui.NameFor | telegram_multi_sender_gui.py:1167-1168 | the account's name when the phone is stored with a non-empty name, otherwise the phone itself; the shown name is empty only for an empty phone |
| Gui.Truncate | telegram_multi_sender_gui.py:1201 | `s[:60]` is the prefix of length `min(len(s), 60)` |
| Gui.VoiceOutcome | telegram_multi_sender_gui.py:1186-1201 | a voice note succeeds exactly when there is a client and the send goes through; a success carries no message; every message is at most 60 characters |
| Gui.SendAttempt | telegram_multi_sender_gui.py:1160-1163 | only a text send raises; a send succeeds exactly when the lookup under the normalised phone finds a client and the send goes through; the cache is the one `get_client` leaves |
| Gui.Events | telegram_multi_sender_gui.py:1165-1174 | one progress event per result; event `j` counts `j + 1` of the total and carries result `j`'s outcome and log line |
| Gui.SendRoundResults | telegram_multi_sender_gui.py:1154-1179 | every turn taken without an exception reports one outcome; an exception ends the loop before its turn reports; a voice send never raises |
| Gui.SendRoundPrefix | telegram_multi_sender_gui.py:1154-1179 | later turns only append outcomes, and after an exception nothing changes any more |
| Gui.SendRoundLast | telegram_multi_sender_gui.py:1159-1163 | the last turn succeeded exactly when its account had a client, against the cache the earlier turns left, and its send went through |
| Gui.SendRoundSuccess | telegram_multi_sender_gui.py:1159-1163 | turn `j` succeeded exactly when account `j mod n` had a client, against the cache the turns before it left, and its send went through |
| Gui.ReportsFacts | telegram_multi_sender_gui.py:1159-1174 | result `j` is the send from account `j mod n` to target `j`, with its outcome and the log line made from the display name |
| Gui.SenderWindow.constructor | telegram_multi_sender_gui.py:464-474 | no cards and nothing selected over the given store; the initial `_load_accounts()` of `__init__` is the separate `LoadAccounts` call |
| Gui.SenderWindow.OnAccountSelect | telegram_multi_sender_gui.py:979-985 | select adds the phone, deselect discards it; the counter shows the set's size |
| Gui.SenderWindow.ClickCard | telegram_multi_sender_gui.py:300-303 | the card flips and the set follows it; every other card keeps its selection and every card its status |
| Gui.SenderWindow.SelectAll | telegram_multi_sender_gui.py:998-1003 | every card is selected, keeping its status, and the set holds every card's phone |
| Gui.SenderWindow.DeselectAll | telegram_multi_sender_gui.py:1005-1010 | every card is cleared, keeping its status, and the set emptied |
| Gui.SenderWindow.OnAccountDelete | telegram_multi_sender_gui.py:987-996 | once confirmed, the phone leaves the store, the key order (the rest in order), the cards and the selection; unconfirmed, nothing changes |
| Gui.SenderWindow.LoadAccounts | telegram_multi_sender_gui.py:951-977 | one fresh unselected card per stored account, an empty selection, and the count logged |
| Gui.SenderWindow.SelectedList | telegram_multi_sender_gui.py:1098 | `list(set)`: each selected phone once |
| Gui.SenderWindow.StartCheck | telegram_multi_sender_gui.py:1041-1049 | with no card, the notice and no check; otherwise every card shows "checking" |
| Gui.CheckPrefixResults | telegram_multi_sender_gui.py:1051-1089 | the check reports once per key, in key order and under the key, and every status is a definite one: a failure on one key does not stop the others and no card stays "unknown" or "checking" |
| Gui.CheckPrefixKeepsClients | telegram_multi_sender_gui.py:1055 | the check only adds clients to the cache: every client cached before is still cached after |
| Gui.SenderWindow.CheckOne | telegram_multi_sender_gui.py:1054-1084 | one turn of the loop: the status of the key appended to the results, and the cache the lookup leaves, as CheckTurn gives them |
| Gui.SenderWindow.CheckNext | telegram_multi_sender_gui.py:1053-1087 | one more key checked extends the check of the keys before it by one turn |
| Gui.SenderWindow.DoCheck | telegram_multi_sender_gui.py:1051-1089 | the results and the final cache are CheckPrefix over every stored key in key order, each key looked up as `get_client` normalises it and from the cache the keys before it left; the store is unchanged |
| Gui.SenderWindow.OnStatusUpdate | telegram_multi_sender_gui.py:1303-1306 | only the named card changes its status |
| Gui.SenderWindow.SendOne | telegram_multi_sender_gui.py:1160-1163 | the outcome and cache are those of SendAttempt: a text through `send_from_account`, a voice note through `_send_voice_msg`; only a text send can raise; a success needs a delivered send; the store is unchanged |
| Gui.SenderWindow.SendTurn | telegram_multi_sender_gui.py:1158-1173 | one send and its result: the phone, the target and the log line made from the account's display name and the send's outcome; an exception passes through unchanged; the cache is SendAttempt's |
| Gui.SenderWindow.SendNext | telegram_multi_sender_gui.py:1159-1173 | turn `i` sends from account `i mod n` to target `i` and is one more step of SendRound; the store is unchanged |
| Gui.SenderWindow.AdvanceSend | telegram_multi_sender_gui.py:1158-1177 | one loop body: an exception leaves results, events and pauses unchanged; otherwise one more result, one more event and the pause count for one more send, all as their specification functions give them |
| Gui.SenderWindow.DoSend | telegram_multi_sender_gui.py:1150-1179 | target `i` goes from account `i mod n`. A send starts only while the stop flag is up. The loop ends at the first lowered flag, at an exception (text sends only), or at the end. The results are Reports of the outcomes, the progress events are Events of the results, and there is a pause after each send but the last of the list. The outcomes, cache and exception are SendRound over the turns taken |
| Updater.ParseInt | updater.py:73-74 | `int()` of a blank part fails |
| Updater.GroupsDecimal | updater.py:73-74 | for plain digits, reading them as underscore-separated groups gives their decimal value |
| Updater.DigitsAreGroups | updater.py:73-74 | a non-empty run of digits is a valid literal with its decimal value |
| Updater.ParseIntDigits | updater.py:73-74 | `int()` of a run of digits is its decimal value |
| Updater.ParseIntPlus | updater.py:73-74 | `int()` of `+` and digits is the digits' value |
| Updater.ParseIntMinus | updater.py:73-74 | `int()` of `-` and digits is the negated value |
| Updater.ParseIntZero | updater.py:73-74 | `int("0")` is 0 |
| Updater.AllSomeMeaning | updater.py:73-74 | the list comprehension succeeds exactly when every part parses, and keeps their values in order |
| Updater.AllSomeSnoc | updater.py:73-74 | one more part parses or fails on its own |
| Updater.ParseEachSnoc | updater.py:73-74 | `int` is applied to each part on its own |
| Updater.Pad | updater.py:76-79 | padding reaches the longer length |
| Updater.NewerParts | updater.py:82-83 | a failed parse means no update |
| Updater.ListGreaterSameLength | updater.py:81 | list comparison on equal lengths is decided at the first difference |
| Updater.PaddedCompare | updater.py:76-81 | comparing the padded lists is comparing the lists read with endless trailing zeros |
| Updater.NewerMeansPaddedGreater | updater.py:70-83 | an update exactly when both versions parse and the latest is greater at the first difference, zeros padding both |
| Updater.NewerIrreflexive | updater.py:81 | no version is newer than itself |
| Updater.NewerAsymmetric | updater.py:81 | two versions are never each newer than the other |
| Updater.ParseVersionDotZero | updater.py:73-74 | a trailing ".0" adds one zero part |
| Updater.NewerIgnoresTrailingZero | updater.py:76-79 | a trailing ".0" on either version does not change the answer |
| Updater.UnparsablePartMeansNoUpdate | updater.py:82-83 | a part `int` rejects means no update |
| Updater.RejectedParts | updater.py:73-74 | the parts "" (from "1..2") and "0-beta" (from "1.0-beta") are rejected |
| Updater.TrailingDotMeansNoUpdate | updater.py:73-74 | a version ending in "." is never an update |
| Updater.ScanAssetsFindsFirstExe | updater.py:58-61 | the address found is that of the first `.exe` asset; none is found exactly when every asset has a name and none ends in `.exe` |
| Updater.AutoUpdater.constructor | updater.py:28-32 | no version, no address and empty notes |
| Updater.AutoUpdater.CompareVersions | updater.py:70-83 | the two padding loops and the list comparison give Newer |
| Updater.AutoUpdater.PadPair | updater.py:76-79 | the two padding loops extend both lists with zeros to the longer length |
| Updater.AutoUpdater.FetchLatestRelease | updater.py:44-68 | a failed request reports no update with the running version and touches nothing. Otherwise the version is the tag without leading `v`s and the notes are kept. The address is that of the first `.exe` asset, or unchanged. A missing asset key reports no update after the version and notes were set |

## Left out

- Reading and writing the accounts file (`_load_accounts`, `_save_accounts`) and deleting `.session` files are not modelled; the store lives in memory. The window's reload of the file in `_load_accounts` is not modelled either; it rebuilds the cards from the store as it is.
- Every Telegram client call is an input: `connect`, `is_user_authorized`, `send_code_request`, `sign_in`, `get_me`, `send_message`, `send_file`, `get_entity`, `get_dialogs`, `disconnect`, the tdata conversion. An exception is represented by its type (flood-wait, code expired, code invalid) or by its `str(e)` text.
- Accounts.JoinPath: `os.path.join` is modelled with the POSIX separator `/`; on Windows, where the program ships as an `.exe`, the stored session path uses `\\` instead. The contract (the path ends with the file name) holds on both.
- Manager.LookupFor: an exception raised by `is_user_authorized()` is folded into the `connect()` step, since the two end the lookup the same way.
- HTTP requests (`requests.get`, `urllib`), their timeouts, `asyncio.sleep` delays, `datetime.now()` (a `now` parameter), `input()` prompts (a typed line is an input), and `print` are not modelled. The pauses of `send_from_all` and `send_to_multiple` are not counted; those of the window's send loop are.
- Threads, the event loop and the window's `task_queue` are not modelled. The stop flag is an input read once per target.
- Widgets, colours, layout, the log box, message boxes and the update dialog are not modelled. The texts that handlers would show are returned instead.
- Float handling is not modelled: the delay entry with its fallback to 5 and the progress ratio.
- Regular expressions use ASCII digits for `\d`, and the case-insensitive keywords fold ASCII letters only. Python's Unicode digits and full case folding are not modelled. Whitespace is Python's own set of whitespace characters.
- Updater.ParseInt: `int()` is modelled on ASCII digits with surrounding whitespace, a sign and single underscores between digits; Unicode digits are not modelled.
- Text.Lower: lower-casing maps the ASCII letters only.
- Updater.AutoUpdater.FetchLatestRelease: the reply is given already decoded. A missing tag or body arrives as "", the JSON default. Fields of the wrong type, the update download, the batch script and the restart are not modelled.
- Manager.AccountManager.ImportFromTdata: the platform-dependent default tdata folder is given as the path. The save after the loop is not modelled. A folder that fails while its accounts are being counted is treated like one that fails to load.
- The plan of `batch_send` is a list of pairs, so unlike the source's dictionary it may name an account twice. The results of `send_to_multiple` are discarded, as in the source.
- The status check's per-account notifications through the window's `task_queue` are not modelled; the window applies each status with OnStatusUpdate.
- The window's other features are outside this model: verifying sends, the voice-file picker, the login and import dialogs, and the statistics panel. So is the command-line menu (`interactive_mode`).
- The documented behaviour of the senders is that a send never raises. In the code, an exception of `connect()` or `is_user_authorized()` inside `get_client` is not caught by `send_from_account`. It propagates out of `send_from_all`, `send_to_multiple`, `batch_send` and the window's text send loop. The model follows the code (`LookupRaised`).
