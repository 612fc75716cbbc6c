/** The mail ingestion route of app/api/emails/sync/route.ts: request checks,
    the account upsert, listing at most 20 inbox messages and processing the
    first 10, building one email row per message (header lookup, body
    selection, truncation, sender name, read flag), and the batch upsert keyed
    by (account_id, remote_id). The Gmail calls, base64 decoding and date
    parsing are parameters; the two store tables are maps. */
module EmailSync {
  import opened JsBuiltins
  import Config

  datatype Header = Header(name: string, value: string)

  /** `{ data?: string }`, the body of a payload or of a part. */
  datatype BodyData = BodyData(data: Option<string>)

  datatype Part = Part(mimeType: string, body: Option<BodyData>)

  datatype Payload = Payload(headers: Option<seq<Header>>, parts: Option<seq<Part>>, body: Option<BodyData>)

  /** The message fetched with format 'full'. */
  datatype MessageDetail = MessageDetail(payload: Option<Payload>)

  /** An entry of the message list. */
  datatype ListedMessage = ListedMessage(id: string, labelIds: Option<seq<string>>)

  /** A row of the `emails` table. */
  datatype EmailRow = EmailRow(
    remoteId: string,
    subject: string,
    sender: string,
    senderName: string,
    bodyText: Utf16,
    receivedAt: string,
    isRead: bool,
    accountId: string)

  /** A row of the `email_accounts` table. */
  datatype AccountRow = AccountRow(
    id: string,
    userId: Option<string>,
    emailAddress: string,
    provider: string,
    accessToken: string,
    isConnected: bool,
    lastSync: string)

  const ListLimit := 20
  const ProcessLimit := 10
  const BodyLimit := 1000

  /** The message `new Date(s).toISOString()` throws for an invalid date. */
  const InvalidDate := "Invalid time value"

  /** `payload?.headers || []`. */
  function HeadersOf(payload: Option<Payload>): seq<Header> {
    if payload.Some? && payload.value.headers.Some? then payload.value.headers.value else []
  }

  /** `getHeader(name)`: the value of the first header named exactly `name`, or ''. */
  function GetHeader(hs: seq<Header>, name: string): (r: string)
    ensures (forall i :: 0 <= i < |hs| ==> hs[i].name != name) ==> r == ""
    ensures forall i :: 0 <= i < |hs| && hs[i].name == name && (forall j :: 0 <= j < i ==> hs[j].name != name)
                        ==> r == hs[i].value
  {
    match FindFirst(hs, (h: Header) => h.name == name)
    case None => ""
    case Some(i) => hs[i].value
  }

  /** Header names are compared exactly: 'subject' is not 'Subject'. */
  lemma HeaderLookupIsCaseSensitive(v: string)
    ensures GetHeader([Header("subject", v)], "Subject") == ""
    ensures GetHeader([Header("Subject", v)], "Subject") == v
  {
    assert [Header("subject", v)][0].name != "Subject";
  }

  /** The text of a part or payload body, if its data is non-empty. */
  function DataOf(b: Option<BodyData>, decode: string -> string): string {
    if b.Some? && Truthy(b.value.data) then decode(b.value.data.value) else ""
  }

  /** The body: with `parts`, only the first text/plain part counts; without
      `parts`, the payload's own body; `decode` is the base64 decoder. */
  function SelectBody(payload: Option<Payload>, decode: string -> string): string {
    if payload.Some? && payload.value.parts.Some? then
      var parts := payload.value.parts.value;
      match FindFirst(parts, (p: Part) => p.mimeType == "text/plain")
      case None => ""
      case Some(i) => DataOf(parts[i].body, decode)
    else if payload.Some? then DataOf(payload.value.body, decode)
    else ""
  }

  /** With `parts` present the body is that of the first text/plain part, or ''
      when that part has no data, even if a later part or the payload body has some. */
  lemma BodyFromFirstTextPart(pl: Payload, decode: string -> string, i: nat)
    requires pl.parts.Some? && i < |pl.parts.value|
    requires pl.parts.value[i].mimeType == "text/plain"
    requires forall j :: 0 <= j < i ==> pl.parts.value[j].mimeType != "text/plain"
    ensures SelectBody(Some(pl), decode) == DataOf(pl.parts.value[i].body, decode)
  {
    var r := FindFirst(pl.parts.value, (p: Part) => p.mimeType == "text/plain");
    assert r.Some?;
    assert r.value == i;
  }

  /** With `parts` present the payload's own body is ignored, and with no
      text/plain part the body is ''. */
  lemma PartsShadowPayloadBody(pl: Payload, b: Option<BodyData>, decode: string -> string)
    requires pl.parts.Some?
    ensures SelectBody(Some(pl.(body := b)), decode) == SelectBody(Some(pl), decode)
    ensures (forall j :: 0 <= j < |pl.parts.value| ==> pl.parts.value[j].mimeType != "text/plain")
            ==> SelectBody(Some(pl), decode) == ""
  {
  }

  /** Without `parts` the payload body's data is used; with neither the body is ''. */
  lemma NoPartsUsesPayloadBody(pl: Payload, decode: string -> string)
    requires pl.parts.None?
    ensures SelectBody(Some(pl), decode) == DataOf(pl.body, decode)
    ensures pl.body.None? ==> SelectBody(Some(pl), decode) == ""
    ensures SelectBody(None, decode) == ""
  {
  }

  /** `sender.split('<')[0].trim()`. */
  function SenderName(sender: string): (r: string)
    ensures '<' !in r
    ensures r == [] || (!IsJsSpace(r[0]) && !IsJsSpace(r[|r| - 1]))
    ensures |r| <= |sender|
  {
    var before := BeforeFirst(sender, '<');
    TrimKeepsAbsent(before, '<');
    Trim(before)
  }

  /** The display name is everything before the first '<', trimmed; with no '<'
      it is the whole header trimmed. */
  lemma SenderNameSplit(name: string, rest: string)
    requires '<' !in name
    ensures SenderName(name + "<" + rest) == Trim(name)
    ensures SenderName(name) == Trim(name)
  {
    BeforeFirstSplit(name, '<', rest);
  }

  /** `!msg.labelIds?.includes('UNREAD')`. */
  function IsRead(labels: Option<seq<string>>): bool {
    !(labels.Some? && "UNREAD" in labels.value)
  }

  /** A message is read iff its label list does not contain 'UNREAD'; an absent list counts as read. */
  lemma IsReadIffNoUnreadLabel(labels: Option<seq<string>>)
    ensures IsRead(labels) <==> labels.None? || forall i :: 0 <= i < |labels.value| ==> labels.value[i] != "UNREAD"
    ensures IsRead(None)
  {
  }

  /** `cut` is what `substring(0, 1000)` keeps of `text`: its first min(1000, length) code units. */
  predicate BodyCut(cut: Utf16, text: Utf16) {
    |cut| == Min(BodyLimit, |text|) && cut == text[..|cut|]
  }

  /** The row built for one message; `parseDate` is `new Date(d).toISOString()`,
      None where that throws. The decoded body becomes a JavaScript string, of
      which `substring(0, 1000)` keeps the first 1000 UTF-16 code units. */
  function BuildRow(accountId: string, msg: ListedMessage, detail: MessageDetail,
                    decode: string -> string, parseDate: string -> Option<string>): (r: Result<EmailRow>)
    ensures r.Ok? <==> parseDate(GetHeader(HeadersOf(detail.payload), "Date")).Some?
    ensures r.Err? ==> r.message == InvalidDate
    ensures r.Ok? ==> r.value.remoteId == msg.id && r.value.accountId == accountId
    ensures r.Ok? ==> r.value.subject == GetHeader(HeadersOf(detail.payload), "Subject")
    ensures r.Ok? ==> r.value.sender == GetHeader(HeadersOf(detail.payload), "From")
    ensures r.Ok? ==> r.value.senderName == SenderName(r.value.sender) && '<' !in r.value.senderName
    ensures r.Ok? ==> parseDate(GetHeader(HeadersOf(detail.payload), "Date")) == Some(r.value.receivedAt)
    ensures r.Ok? ==> BodyCut(r.value.bodyText, EncodeUtf16(SelectBody(detail.payload, decode)))
    ensures r.Ok? ==> r.value.isRead == !(msg.labelIds.Some? && "UNREAD" in msg.labelIds.value)
  {
    var hs := HeadersOf(detail.payload);
    var subject := GetHeader(hs, "Subject");
    var sender := GetHeader(hs, "From");
    var date := GetHeader(hs, "Date");
    var body := EncodeUtf16(SelectBody(detail.payload, decode));
    match parseDate(date)
    case None => Err(InvalidDate)
    case Some(iso) =>
      Ok(EmailRow(msg.id, subject, sender, SenderName(sender), Prefix(body, BodyLimit), iso, IsRead(msg.labelIds), accountId))
  }

  /** The cut counts code units, not characters: a character outside the Basic
      Multilingual Plane straddling unit 1000 loses its low surrogate, and the
      stored text ends in a lone high surrogate. */
  lemma SubstringMaySplitSurrogatePair(a: string, c: char)
    requires |EncodeUtf16(a)| == 999 && c as int >= 0x1_0000
    ensures var cut := Prefix(EncodeUtf16(a + [c]), BodyLimit);
      && cut == EncodeUtf16(a) + [EncodeChar(c)[0]]
      && IsHighSurrogate(cut[999])
  {
    EncodeUtf16Append(a, [c]);
    assert EncodeUtf16([c]) == EncodeChar(c);
  }

  /** A body of 1000 such characters (emoji, say) keeps only its first 500. */
  lemma AstralBodyKeepsHalf(s: string)
    requires |s| == 1000 && forall i :: 0 <= i < |s| ==> s[i] as int >= 0x1_0000
    ensures Prefix(EncodeUtf16(s), BodyLimit) == EncodeUtf16(s[..500])
  {
    assert s == s[..500] + s[500..];
    EncodeUtf16Append(s[..500], s[500..]);
    AstralLength(s[..500]);
  }

  /** A message without a Date header fails whenever the empty date is invalid,
      as it is in JavaScript. */
  lemma MissingDateFails(accountId: string, msg: ListedMessage, detail: MessageDetail,
                         decode: string -> string, parseDate: string -> Option<string>)
    requires forall i :: 0 <= i < |HeadersOf(detail.payload)| ==> HeadersOf(detail.payload)[i].name != "Date"
    requires parseDate("") == None
    ensures BuildRow(accountId, msg, detail, decode, parseDate) == Err("Invalid time value")
  {
  }

  /** The row for one listed message: fetch it by id, then build its row. */
  function MessageRow(accountId: string, msg: ListedMessage, fetch: string -> Result<MessageDetail>,
                      decode: string -> string, parseDate: string -> Option<string>): Result<EmailRow> {
    match fetch(msg.id)
    case Err(m) => Err(m)
    case Ok(detail) => BuildRow(accountId, msg, detail, decode, parseDate)
  }

  /** The rows for a batch, in order (`Promise.all` over the batch); the first
      failure fails the whole batch. */
  function BuildRows(accountId: string, msgs: seq<ListedMessage>, fetch: string -> Result<MessageDetail>,
                     decode: string -> string, parseDate: string -> Option<string>): (r: Result<seq<EmailRow>>)
    ensures r.Ok? <==> forall i :: 0 <= i < |msgs| ==> MessageRow(accountId, msgs[i], fetch, decode, parseDate).Ok?
    ensures r.Ok? ==> |r.value| == |msgs| && forall i :: 0 <= i < |msgs| ==>
      MessageRow(accountId, msgs[i], fetch, decode, parseDate) == Ok(r.value[i])
  {
    AllOk(msgs, (m: ListedMessage) => MessageRow(accountId, m, fetch, decode, parseDate))
  }

  /** The rows of a successful batch carry the request's account and their own
      message ids, in order, with bodies of at most 1000 code units. */
  lemma BatchRowsIdentifyMessages(accountId: string, msgs: seq<ListedMessage>, fetch: string -> Result<MessageDetail>,
                                  decode: string -> string, parseDate: string -> Option<string>)
    requires BuildRows(accountId, msgs, fetch, decode, parseDate).Ok?
    ensures var rows := BuildRows(accountId, msgs, fetch, decode, parseDate).value;
      |rows| == |msgs| &&
      forall i :: 0 <= i < |rows| ==>
        rows[i].accountId == accountId && rows[i].remoteId == msgs[i].id && |rows[i].bodyText| <= 1000
  {
    var rows := BuildRows(accountId, msgs, fetch, decode, parseDate).value;
    forall i | 0 <= i < |rows|
      ensures rows[i].accountId == accountId && rows[i].remoteId == msgs[i].id && |rows[i].bodyText| <= 1000
    {
      assert MessageRow(accountId, msgs[i], fetch, decode, parseDate) == Ok(rows[i]);
      var r := BuildRow(accountId, msgs[i], fetch(msgs[i].id).value, decode, parseDate);
      assert r == Ok(rows[i]);
    }
  }

  /** The conflict key of the `emails` upsert: (account_id, remote_id). */
  type EmailKey = (string, string)

  function Key(row: EmailRow): EmailKey {
    (row.accountId, row.remoteId)
  }

  /** The `emails` upsert on conflict (account_id, remote_id), row by row. */
  function UpsertAll(table: map<EmailKey, EmailRow>, rows: seq<EmailRow>): map<EmailKey, EmailRow>
    decreases |rows|
  {
    if rows == [] then table else UpsertAll(table[Key(rows[0]) := rows[0]], rows[1..])
  }

  /** The upsert overrides the table with the batch's own map (the later row
      wins on a repeated key): what is stored under a key of the batch does not
      depend on what was there before. */
  lemma {:induction false} UpsertIsOverride(table: map<EmailKey, EmailRow>, rows: seq<EmailRow>)
    ensures UpsertAll(table, rows) == table + UpsertAll(map[], rows)
    decreases |rows|
  {
    if rows != [] {
      var k, r := Key(rows[0]), rows[0];
      UpsertIsOverride(table[k := r], rows[1..]);
      UpsertIsOverride(map[k := r], rows[1..]);
      var b := UpsertAll(map[], rows[1..]);
      assert table + (map[k := r] + b) == table[k := r] + b;
    }
  }

  /** The keys the batch's own map holds are exactly the keys of its rows. */
  lemma {:induction false} BatchKeys(rows: seq<EmailRow>)
    ensures UpsertAll(map[], rows).Keys == set r | r in rows :: Key(r)
  {
    if rows != [] {
      BatchKeys(rows[1..]);
      UpsertIsOverride(map[Key(rows[0]) := rows[0]], rows[1..]);
      assert forall r :: r in rows <==> r == rows[0] || r in rows[1..];
    }
  }

  /** Re-running the upsert with the same rows changes nothing. */
  lemma UpsertIdempotent(table: map<EmailKey, EmailRow>, rows: seq<EmailRow>)
    ensures UpsertAll(UpsertAll(table, rows), rows) == UpsertAll(table, rows)
  {
    UpsertIsOverride(table, rows);
    UpsertIsOverride(UpsertAll(table, rows), rows);
    var b := UpsertAll(map[], rows);
    assert (table + b) + b == table + b;
  }

  /** The upsert never removes a row, keeps the rows of other keys as they were,
      and adds a row only for a key it did not hold: rows whose keys are already
      stored overwrite rather than add. */
  lemma UpsertOverwritesNeverDuplicates(table: map<EmailKey, EmailRow>, rows: seq<EmailRow>)
    ensures UpsertAll(table, rows).Keys == table.Keys + set r | r in rows :: Key(r)
    ensures forall k :: k in table && (forall i :: 0 <= i < |rows| ==> Key(rows[i]) != k) ==> UpsertAll(table, rows)[k] == table[k]
    ensures (forall i :: 0 <= i < |rows| ==> Key(rows[i]) in table) ==> UpsertAll(table, rows).Keys == table.Keys
  {
    UpsertIsOverride(table, rows);
    BatchKeys(rows);
  }

  /** A row of the batch is what the upsert leaves under its key, unless a
      later row of the batch carries the same key. */
  lemma {:induction false} UpsertStoresLastRow(table: map<EmailKey, EmailRow>, rows: seq<EmailRow>, i: nat)
    requires i < |rows|
    requires forall j :: i < j < |rows| ==> Key(rows[j]) != Key(rows[i])
    ensures Key(rows[i]) in UpsertAll(table, rows) && UpsertAll(table, rows)[Key(rows[i])] == rows[i]
    decreases |rows|
  {
    var t1 := table[Key(rows[0]) := rows[0]];
    assert forall j :: 0 <= j < |rows[1..]| ==> rows[1..][j] == rows[j + 1];
    if i == 0 {
      UpsertOverwritesNeverDuplicates(t1, rows[1..]);
    } else {
      UpsertStoresLastRow(t1, rows[1..], i - 1);
    }
  }

  /** The two tables the route writes. */
  class Database {
    var accounts: map<string, AccountRow>
    var emails: map<EmailKey, EmailRow>

    constructor ()
      ensures accounts == map[] && emails == map[]
    {
      accounts := map[];
      emails := map[];
    }

    /** The `email_accounts` upsert on conflict id; `failure` is the error the
        store answers with, if any, and a failed upsert writes nothing. */
    method UpsertAccount(row: AccountRow, failure: Option<string>) returns (error: Option<string>)
      modifies this
      ensures error == failure
      ensures accounts == (if failure.None? then old(accounts)[row.id := row] else old(accounts))
      ensures emails == old(emails)
    {
      error := failure;
      if failure.None? {
        accounts := accounts[row.id := row];
      }
    }

    /** The `emails` upsert on conflict (account_id, remote_id). */
    method UpsertEmails(rows: seq<EmailRow>, failure: Option<string>) returns (error: Option<string>)
      modifies this
      ensures error == failure
      ensures emails == (if failure.None? then UpsertAll(old(emails), rows) else old(emails))
      ensures accounts == old(accounts)
    {
      error := failure;
      if failure.None? {
        emails := UpsertAll(emails, rows);
      }
    }
  }

  /** The JSON body of the request; a field may be missing. */
  datatype SyncParams = SyncParams(
    accessToken: Option<string>,
    accountId: Option<string>,
    userId: Option<string>,
    email: Option<string>)

  /** What the outside world answers: the store's errors for the two upserts,
      the inbox listing (an exception, or the inbox in order), the message
      fetch by id, the base64 decoder, the date parser and the current time. */
  datatype Services = Services(
    accountUpsertError: Option<string>,
    inbox: Result<seq<ListedMessage>>,
    fetch: string -> Result<MessageDetail>,
    decode: string -> string,
    parseDate: string -> Option<string>,
    emailsUpsertError: Option<string>,
    now: string)

  datatype SyncResponse = Synced(count: nat, message: string) | Failed(status: nat, error: string)

  datatype Tables = Tables(accounts: map<string, AccountRow>, emails: map<EmailKey, EmailRow>)

  datatype SyncOutcome = SyncOutcome(response: SyncResponse, tables: Tables)

  predicate ParamsPresent(p: SyncParams) {
    Truthy(p.accessToken) && Truthy(p.accountId) && Truthy(p.userId) && Truthy(p.email)
  }

  /** The account row written before any message is fetched. */
  function AccountRowFor(p: SyncParams, now: string): AccountRow
    requires ParamsPresent(p)
  {
    AccountRow(p.accountId.value, None, p.email.value, "gmail", p.accessToken.value, true, now)
  }

  /** The messages processed: at most 20 are listed and the first 10 of those kept. */
  function Batch(inbox: seq<ListedMessage>): (b: seq<ListedMessage>)
    ensures |b| == Min(10, |inbox|) && b == inbox[..|b|]
  {
    var listed := inbox[..Min(ListLimit, |inbox|)];
    listed[..Min(ProcessLimit, |listed|)]
  }

  /** What `POST` answers and how it leaves the two tables. */
  function SyncSpec(body: Result<SyncParams>, settings: Config.Settings, svc: Services, t: Tables): SyncOutcome {
    if body.Err? then SyncOutcome(Failed(500, "Failed to sync emails: " + body.message), t)
    else
      var p := body.value;
      if !ParamsPresent(p) then SyncOutcome(Failed(400, "Missing required parameters"), t)
      else if settings.supabase.url == "" || settings.supabase.serviceKey == "" then
        SyncOutcome(Failed(500, "Server configuration error"), t)
      else if svc.accountUpsertError.Some? then
        SyncOutcome(Failed(500, "Failed to create email account: " + svc.accountUpsertError.value), t)
      else
        var t1 := t.(accounts := t.accounts[p.accountId.value := AccountRowFor(p, svc.now)]);
        match svc.inbox
        case Err(m) => SyncOutcome(Failed(500, "Failed to sync emails: " + m), t1)
        case Ok(inbox) =>
          match BuildRows(p.accountId.value, Batch(inbox), svc.fetch, svc.decode, svc.parseDate)
          case Err(m) => SyncOutcome(Failed(500, "Failed to sync emails: " + m), t1)
          case Ok(rows) =>
            if svc.emailsUpsertError.Some? then
              SyncOutcome(Failed(500, "Database error: " + svc.emailsUpsertError.value), t1)
            else
              SyncOutcome(Synced(|rows|, "Successfully synced " + NatToString(|rows|) + " emails"),
                          t1.(emails := UpsertAll(t.emails, rows)))
  }

  /** `POST /api/emails/sync`. */
  method Sync(db: Database, body: Result<SyncParams>, settings: Config.Settings, svc: Services)
    returns (response: SyncResponse)
    modifies db
    ensures SyncOutcome(response, Tables(db.accounts, db.emails))
         == SyncSpec(body, settings, svc, Tables(old(db.accounts), old(db.emails)))
  {
    if body.Err? {
      return Failed(500, "Failed to sync emails: " + body.message);
    }
    var p := body.value;
    if !Truthy(p.accessToken) || !Truthy(p.accountId) || !Truthy(p.userId) || !Truthy(p.email) {
      return Failed(400, "Missing required parameters");
    }
    if settings.supabase.url == "" || settings.supabase.serviceKey == "" {
      return Failed(500, "Server configuration error");
    }
    var accountError := db.UpsertAccount(AccountRowFor(p, svc.now), svc.accountUpsertError);
    if accountError.Some? {
      return Failed(500, "Failed to create email account: " + accountError.value);
    }
    if svc.inbox.Err? {
      return Failed(500, "Failed to sync emails: " + svc.inbox.message);
    }
    var rows := BuildRows(p.accountId.value, Batch(svc.inbox.value), svc.fetch, svc.decode, svc.parseDate);
    if rows.Err? {
      return Failed(500, "Failed to sync emails: " + rows.message);
    }
    var error := db.UpsertEmails(rows.value, svc.emailsUpsertError);
    if error.Some? {
      return Failed(500, "Database error: " + error.value);
    }
    response := Synced(|rows.value|, "Successfully synced " + NatToString(|rows.value|) + " emails");
  }

  /** A missing or empty parameter gives 400 and writes nothing. */
  lemma MissingParameterWritesNothing(p: SyncParams, settings: Config.Settings, svc: Services, t: Tables)
    requires !Truthy(p.accessToken) || !Truthy(p.accountId) || !Truthy(p.userId) || !Truthy(p.email)
    ensures SyncSpec(Ok(p), settings, svc, t) == SyncOutcome(Failed(400, "Missing required parameters"), t)
  {
  }

  /** `userId` must be present but is never stored: the account row's user_id
      is always null, so any non-empty `userId` gives the same outcome. */
  lemma UserIdOnlyChecked(p: SyncParams, u: string, settings: Config.Settings, svc: Services, t: Tables)
    requires Truthy(p.userId) && u != ""
    ensures SyncSpec(Ok(p.(userId := Some(u))), settings, svc, t) == SyncSpec(Ok(p), settings, svc, t)
    ensures ParamsPresent(p) ==> AccountRowFor(p, svc.now).userId == None
  {
  }

  /** A missing store URL or service key gives 500 before the account upsert. */
  lemma ConfigErrorWritesNothing(p: SyncParams, settings: Config.Settings, svc: Services, t: Tables)
    requires ParamsPresent(p)
    requires settings.supabase.url == "" || settings.supabase.serviceKey == ""
    ensures SyncSpec(Ok(p), settings, svc, t) == SyncOutcome(Failed(500, "Server configuration error"), t)
  {
  }

  /** With settings loaded from an environment that `validateEnv` accepts in
      production, the configuration check never fails: the request goes on to
      the account upsert. */
  lemma ValidatedProductionPassesConfigCheck(p: SyncParams, env: Config.Env, svc: Services, t: Tables)
    requires "NODE_ENV" in env && env["NODE_ENV"] == "production"
    requires Config.ValidationOutcome(env) == Config.Returned
    requires ParamsPresent(p) && svc.accountUpsertError.Some?
    ensures SyncSpec(Ok(p), Config.LoadSettings(env), svc, t)
         == SyncOutcome(Failed(500, "Failed to create email account: " + svc.accountUpsertError.value), t)
  {
    Config.ProductionSettingsPresent(env);
  }

  /** An account-upsert error gives 500 before any message is listed or fetched:
      the outcome is the same whatever Gmail would have answered. */
  lemma AccountErrorBeforeFetch(p: SyncParams, settings: Config.Settings, svc: Services, t: Tables,
                                inbox: Result<seq<ListedMessage>>, fetch: string -> Result<MessageDetail>)
    requires ParamsPresent(p) && settings.supabase.url != "" && settings.supabase.serviceKey != ""
    requires svc.accountUpsertError.Some?
    ensures SyncSpec(Ok(p), settings, svc, t).tables == t
    ensures SyncSpec(Ok(p), settings, svc, t).response.Failed?
         && SyncSpec(Ok(p), settings, svc, t).response.status == 500
    ensures SyncSpec(Ok(p), settings, svc, t) == SyncSpec(Ok(p), settings, svc.(inbox := inbox, fetch := fetch), t)
  {
  }

  /** A failure after the account upsert is not rolled back: the account row
      stays written and the emails table is untouched. */
  lemma LaterFailureKeepsAccountRow(p: SyncParams, settings: Config.Settings, svc: Services, t: Tables)
    requires ParamsPresent(p) && settings.supabase.url != "" && settings.supabase.serviceKey != ""
    requires svc.accountUpsertError.None?
    requires SyncSpec(Ok(p), settings, svc, t).response.Failed?
    ensures SyncSpec(Ok(p), settings, svc, t).tables
         == Tables(t.accounts[p.accountId.value := AccountRowFor(p, svc.now)], t.emails)
  {
  }

  /** A successful sync reports min(10, inbox size) messages and stores one row
      per processed message under (accountId, message id). */
  lemma SuccessfulSyncCount(p: SyncParams, settings: Config.Settings, svc: Services, t: Tables)
    requires SyncSpec(Ok(p), settings, svc, t).response.Synced?
    ensures svc.inbox.Ok? && ParamsPresent(p)
    ensures SyncSpec(Ok(p), settings, svc, t).response.count == Min(10, |svc.inbox.value|)
    ensures forall i :: 0 <= i < SyncSpec(Ok(p), settings, svc, t).response.count ==>
      (p.accountId.value, svc.inbox.value[i].id) in SyncSpec(Ok(p), settings, svc, t).tables.emails
  {
    var rows := BuildRows(p.accountId.value, Batch(svc.inbox.value), svc.fetch, svc.decode, svc.parseDate).value;
    BatchRowsIdentifyMessages(p.accountId.value, Batch(svc.inbox.value), svc.fetch, svc.decode, svc.parseDate);
    UpsertOverwritesNeverDuplicates(t.emails, rows);
    forall i | 0 <= i < |rows|
      ensures (p.accountId.value, svc.inbox.value[i].id) in UpsertAll(t.emails, rows)
    {
      assert Key(rows[i]) == (p.accountId.value, svc.inbox.value[i].id);
      assert rows[i] in rows;
    }
  }

  /** The conditions under which `POST` succeeds; none of them depends on the tables. */
  predicate SyncSucceeds(body: Result<SyncParams>, settings: Config.Settings, svc: Services) {
    && body.Ok? && ParamsPresent(body.value)
    && settings.supabase.url != "" && settings.supabase.serviceKey != ""
    && svc.accountUpsertError.None? && svc.inbox.Ok?
    && BuildRows(body.value.accountId.value, Batch(svc.inbox.value), svc.fetch, svc.decode, svc.parseDate).Ok?
    && svc.emailsUpsertError.None?
  }

  /** A successful response comes only from those conditions. */
  lemma SyncedOnlyWhenAllStepsPass(body: Result<SyncParams>, settings: Config.Settings, svc: Services, t: Tables)
    ensures SyncSpec(body, settings, svc, t).response.Synced? <==> SyncSucceeds(body, settings, svc)
  {
  }

  /** Under those conditions the outcome is the account row and the batch
      written over whatever the tables held. */
  lemma SyncedTables(body: Result<SyncParams>, settings: Config.Settings, svc: Services, t: Tables)
    requires SyncSucceeds(body, settings, svc)
    ensures var p := body.value;
      var rows := BuildRows(p.accountId.value, Batch(svc.inbox.value), svc.fetch, svc.decode, svc.parseDate).value;
      SyncSpec(body, settings, svc, t)
        == SyncOutcome(Synced(|rows|, "Successfully synced " + NatToString(|rows|) + " emails"),
                       Tables(t.accounts[p.accountId.value := AccountRowFor(p, svc.now)], UpsertAll(t.emails, rows)))
  {
  }

  /** Upserting a batch's rows leaves under (accountId, message id) the row
      built for that message, unless a later message has the same id. */
  lemma UpsertStoresBatchRows(table: map<EmailKey, EmailRow>, accountId: string, msgs: seq<ListedMessage>,
                              fetch: string -> Result<MessageDetail>, decode: string -> string,
                              parseDate: string -> Option<string>, i: nat)
    requires BuildRows(accountId, msgs, fetch, decode, parseDate).Ok?
    requires i < |msgs| && forall j :: i < j < |msgs| ==> msgs[j].id != msgs[i].id
    ensures var rows := BuildRows(accountId, msgs, fetch, decode, parseDate).value;
      (accountId, msgs[i].id) in UpsertAll(table, rows) && UpsertAll(table, rows)[(accountId, msgs[i].id)] == rows[i]
  {
    var rows := BuildRows(accountId, msgs, fetch, decode, parseDate).value;
    BatchRowsIdentifyMessages(accountId, msgs, fetch, decode, parseDate);
    assert Key(rows[i]) == (accountId, msgs[i].id);
    UpsertStoresLastRow(table, rows, i);
  }

  /** After a successful sync, the row stored under (accountId, message id) is
      the row built for that processed message, unless a later processed
      message has the same id. */
  lemma SyncStoresBuiltRows(p: SyncParams, settings: Config.Settings, svc: Services, t: Tables, i: nat)
    requires SyncSucceeds(Ok(p), settings, svc)
    requires i < |Batch(svc.inbox.value)|
    requires forall j :: i < j < |Batch(svc.inbox.value)| ==> Batch(svc.inbox.value)[j].id != Batch(svc.inbox.value)[i].id
    ensures var key := (p.accountId.value, Batch(svc.inbox.value)[i].id);
      && key in SyncSpec(Ok(p), settings, svc, t).tables.emails
      && SyncSpec(Ok(p), settings, svc, t).tables.emails[key]
         == BuildRows(p.accountId.value, Batch(svc.inbox.value), svc.fetch, svc.decode, svc.parseDate).value[i]
  {
    SyncedTables(Ok(p), settings, svc, t);
    UpsertStoresBatchRows(t.emails, p.accountId.value, Batch(svc.inbox.value), svc.fetch, svc.decode, svc.parseDate, i);
  }

  /** Running the same sync twice leaves the tables as the first run left them:
      re-sync overwrites rows and never duplicates them. */
  lemma ResyncIsIdempotent(body: Result<SyncParams>, settings: Config.Settings, svc: Services, t: Tables)
    requires SyncSucceeds(body, settings, svc)
    ensures var t1 := SyncSpec(body, settings, svc, t).tables;
      SyncSpec(body, settings, svc, t1) == SyncSpec(body, settings, svc, t)
  {
    var p := body.value;
    var rows := BuildRows(p.accountId.value, Batch(svc.inbox.value), svc.fetch, svc.decode, svc.parseDate).value;
    var id := p.accountId.value;
    var row := AccountRowFor(p, svc.now);
    SyncedTables(body, settings, svc, t);
    var t1 := Tables(t.accounts[id := row], UpsertAll(t.emails, rows));
    SyncedTables(body, settings, svc, t1);
    UpsertIdempotent(t.emails, rows);
    assert t1.accounts[id := row] == t1.accounts;
  }
}
