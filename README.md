# Email triage SaaS: verified model of the core

This project is a Dafny model of the server-side core of a Next.js application. The application connects a Gmail inbox, pulls recent messages into a store, and has a language model classify each one. The model covers:

- **AI engine** (`lib/ai-engine.ts`, module `AiEngine`): the classification prompt and request, and the normalisation of the model's JSON reply (defaults, the `|| 50` score default, clamping to [0, 100]). Every failure falls back to one fixed record. It also covers the smart-reply request.
- **Sync route** (`app/api/emails/sync/route.ts`, module `EmailSync`):
  - the request checks and the account upsert;
  - listing at most 20 inbox messages and processing the first 10;
  - the per-message row: header lookup, the body taken from the first text/plain part or the payload, truncation to 1000 code units, the display name, the read flag and the date conversion;
  - the batch upsert keyed by (account_id, remote_id).

  The handler is a method over a `Database` class whose two tables are maps. It is proved against a specification function, `SyncSpec`.
- **Route gate** (`middleware.ts`, module `RouteGate`): the protected-prefix test, the session-cookie check and the matcher's exclusions.
- **Configuration** (`lib/config.ts`, module `Config`): `validateEnv` as a loop over the table of required variables, proved against a specification function. Also the `env` settings object and its defaults.
- **OAuth callback** (`app/api/emails/oauth/callback/route.ts`, module `OAuthCallback`): the ordered decision chain and the success URL, built with `URLSearchParams.set` on a mutable parameter list.
- **Email card** (`components/email-card.tsx`, module `EmailCard`): urgency bands, the category colour and icon, and the dashboard's urgency bar, which uses the same thresholds.

`JsBuiltins` holds the few JavaScript built-ins these rely on:
- truthiness of an optional string;
- `startsWith`, `trim`, `substring`, `split(c)[0]`, `find`, `toLowerCase` (ASCII), `join`;
- `String(n)`;
- the UTF-16 encoding of text, so that `substring` counts code units as JavaScript does.

The following external calls are function parameters of the members that use them:
- the OpenAI call and `JSON.parse`;
- the Gmail list and get calls;
- base64 decoding and `new Date(..).toISOString()`;
- the Google token exchange and the People API call;
- the store's error answers and the clock.

## Model

| member | source | states |
|---|---|---|
| AiEngine.UserPrompt | lib/ai-engine.ts:10-25 | specified by PromptCarriesInputs and PromptDoesNotSeparateInputs: the three inputs spliced verbatim, undelimited, between the template's labels |
| AiEngine.PromptCarriesInputs | lib/ai-engine.ts:10-25 | the sender, subject and content appear verbatim right after their labels at computable offsets of the prompt |
| AiEngine.PromptDoesNotSeparateInputs | lib/ai-engine.ts:13-15 | inputs are neither delimited nor escaped: a sender containing the subject label gives the same prompt as a different sender/subject pair |
| AiEngine.AnalysisSeesOnlyThePrompt | lib/ai-engine.ts:10-42 | inputs that splice into the same user prompt get the same classification, whatever the model and the parser answer |
| AiEngine.RegroupedInputsClassifyAlike | lib/ai-engine.ts:10-42 | a sender carrying the subject label and a subject is classified exactly like that sender with the label moved into the subject |
| AiEngine.ClampScore | lib/ai-engine.ts:53 | the score is always in [0, 100] |
| AiEngine.Normalise | lib/ai-engine.ts:51-57 | a normalised reply has a score in [0, 100] and non-empty category, summary and sentiment |
| AiEngine.AnalyzeEmail | lib/ai-engine.ts:8-68 | whatever the model and the parser answer, the result has a score in [0, 100] and non-empty category, summary and sentiment |
| AiEngine.ScoreClamped | lib/ai-engine.ts:53 | a present non-zero score below 0 becomes 0, above 100 becomes 100, and is kept otherwise |
| AiEngine.ZeroOrMissingScoreIsFifty | lib/ai-engine.ts:53 | a missing score and a score of 0 both become 50 |
| AiEngine.ZeroOnlyFromNegative | lib/ai-engine.ts:53 | the result's score is 0 iff the model gave a negative score |
| AiEngine.CategoryDefaultOrVerbatim | lib/ai-engine.ts:52 | an empty or missing category becomes 'Autre'; any other string passes through unchecked |
| AiEngine.TextDefaults | lib/ai-engine.ts:54-56 | summary, sentiment and suggested reply default to 'Email non analysé', 'Neutre' and '' |
| AiEngine.NormaliseStableIffNonZero | lib/ai-engine.ts:51-57 | normalising a normalised record changes it iff its score is 0 (read back as absent, it becomes 50) |
| AiEngine.FailuresGiveFallback | lib/ai-engine.ts:44-49 | a failed call, empty content, unparseable text or a JSON null give exactly the fallback record |
| AiEngine.ParsedReplyIsNormalised | lib/ai-engine.ts:49-57 | a parsed object is normalised, and the result equals the fallback only if the model wrote the fallback's summary |
| AiEngine.GenerateSmartReply | lib/ai-engine.ts:70-95 | the reply is the model's text when present, and '' when the text is null or the call fails |
| AiEngine.ReplyRequest | lib/ai-engine.ts:70-88 | specified by ReplyPromptCarriesInputs: one user message holding the reply prompt; GenerateSmartReply states what comes of the model's answer |
| AiEngine.ReplyPromptCarriesInputs | lib/ai-engine.ts:72-76 | the category and the received email appear verbatim right after their labels, at computable offsets of the reply prompt |
| EmailSync.GetHeader | app/api/emails/sync/route.ts:87-89 | the value of the first header with exactly that name; '' when none has it |
| EmailSync.HeaderLookupIsCaseSensitive | app/api/emails/sync/route.ts:88 | header names are compared exactly: 'subject' does not match 'Subject' |
| EmailSync.SelectBody | app/api/emails/sync/route.ts:97-104 | specified by BodyFromFirstTextPart, PartsShadowPayloadBody and NoPartsUsesPayloadBody |
| EmailSync.BodyFromFirstTextPart | app/api/emails/sync/route.ts:97-101 | with parts present, the body is the decoded data of the first text/plain part, or '' when that part has none |
| EmailSync.PartsShadowPayloadBody | app/api/emails/sync/route.ts:97-104 | with parts present the payload's own body is ignored; with no text/plain part the body is '' |
| EmailSync.NoPartsUsesPayloadBody | app/api/emails/sync/route.ts:102-104 | without parts the payload body's data is used; without payload or body the body is '' |
| EmailSync.SenderName | app/api/emails/sync/route.ts:110 | the display name contains no '<', has no surrounding white space and is no longer than the sender header |
| EmailSync.SenderNameSplit | app/api/emails/sync/route.ts:110 | the display name is the trimmed text before the first '<', or the whole trimmed header when there is none |
| EmailSync.IsRead | app/api/emails/sync/route.ts:113 | specified by IsReadIffNoUnreadLabel: read iff the labels do not include 'UNREAD' |
| EmailSync.IsReadIffNoUnreadLabel | app/api/emails/sync/route.ts:113 | a message is read iff its labels do not include 'UNREAD'; absent labels count as read |
| EmailSync.BuildRow | app/api/emails/sync/route.ts:91-115 | the row exists iff the Date header parses ('Invalid time value' otherwise); its subject and sender are the first Subject and From headers (or ''), its display name is SenderName of the sender, its received_at is the parsed date, its body is the first min(1000, length) UTF-16 code units of the decoded body, and it carries the message id, the account and the read flag |
| EmailSync.SubstringMaySplitSurrogatePair | app/api/emails/sync/route.ts:111 | the cut counts code units: a character outside the Basic Multilingual Plane straddling unit 1000 leaves a lone high surrogate at the end |
| EmailSync.AstralBodyKeepsHalf | app/api/emails/sync/route.ts:111 | a body of 1000 characters outside the Basic Multilingual Plane keeps only its first 500 |
| EmailSync.MissingDateFails | app/api/emails/sync/route.ts:91-115 | a message without a Date header fails the batch |
| EmailSync.BuildRows | app/api/emails/sync/route.ts:76-117 | the batch succeeds iff every fetch and every row succeeds; then it holds one row per message, in order |
| EmailSync.BatchRowsIdentifyMessages | app/api/emails/sync/route.ts:106-115 | each row of a batch carries the request's account, its own message's id and a body of at most 1000 code units |
| EmailSync.UpsertAll | app/api/emails/sync/route.ts:121-123 | specified by UpsertIsOverride, BatchKeys, UpsertIdempotent, UpsertOverwritesNeverDuplicates and UpsertStoresLastRow |
| EmailSync.UpsertIsOverride | app/api/emails/sync/route.ts:121-123 | the upsert overrides the table with the batch's rows by key, the later row winning |
| EmailSync.BatchKeys | app/api/emails/sync/route.ts:121-123 | the keys the batch writes are exactly (account_id, remote_id) of its rows |
| EmailSync.UpsertIdempotent | app/api/emails/sync/route.ts:120-123 | upserting the same rows twice is upserting them once |
| EmailSync.UpsertOverwritesNeverDuplicates | app/api/emails/sync/route.ts:120-123 | the upsert adds exactly the new keys, keeps rows of other keys, and adds nothing when every key is already stored |
| EmailSync.UpsertStoresLastRow | app/api/emails/sync/route.ts:121-123 | a row of the batch is what the upsert leaves under its key, unless a later row of the batch has the same key |
| EmailSync.UpsertStoresBatchRows | app/api/emails/sync/route.ts:106-123 | after the upsert, the row under (account, message id) is the row built for that message, unless a later message has the same id |
| EmailSync.Batch | app/api/emails/sync/route.ts:67-77 | the processed messages are the first min(10, inbox size) of the inbox |
| EmailSync.Database.UpsertAccount | app/api/emails/sync/route.ts:44-56 | the account row is written under its id unless the store answers an error; emails are untouched |
| EmailSync.Database.UpsertEmails | app/api/emails/sync/route.ts:121-123 | the rows are upserted by key unless the store answers an error; accounts are untouched |
| EmailSync.SyncSpec | app/api/emails/sync/route.ts:20-153 | specified by MissingParameterWritesNothing through ResyncIsIdempotent, and computed step for step by the Sync method: the handler's outcome as a function of the request, the settings, the services' answers and the tables |
| EmailSync.Sync | app/api/emails/sync/route.ts:20-153 | the response and both tables after the call are those SyncSpec gives for the tables before it |
| EmailSync.MissingParameterWritesNothing | app/api/emails/sync/route.ts:24-29 | a missing or empty parameter gives 400 'Missing required parameters' and writes nothing |
| EmailSync.UserIdOnlyChecked | app/api/emails/sync/route.ts:22-56 | userId must be non-empty but never reaches the store: any non-empty value gives the same outcome, and user_id is null |
| EmailSync.ConfigErrorWritesNothing | app/api/emails/sync/route.ts:34-39 | an empty store URL or service key gives 500 'Server configuration error' and writes nothing |
| EmailSync.ValidatedProductionPassesConfigCheck | app/api/emails/sync/route.ts:34-64 | with settings from an environment that validateEnv accepts in production, the request passes the configuration check and reaches the account upsert |
| EmailSync.AccountErrorBeforeFetch | app/api/emails/sync/route.ts:58-64 | an account-upsert error gives 500, writes nothing and does not depend on what Gmail would answer |
| EmailSync.LaterFailureKeepsAccountRow | app/api/emails/sync/route.ts:66-152 | a failure after the account upsert leaves the account row written and the emails table unchanged |
| EmailSync.SuccessfulSyncCount | app/api/emails/sync/route.ts:141-145 | a successful sync reports min(10, inbox size) and stores a row for each processed message under (account, message id) |
| EmailSync.SyncStoresBuiltRows | app/api/emails/sync/route.ts:106-145 | after a successful sync the row stored under (account, message id) is the row built for that processed message, unless a later processed message has the same id |
| EmailSync.SyncedOnlyWhenAllStepsPass | app/api/emails/sync/route.ts:20-145 | the sync succeeds iff the body parses, all parameters and both store settings are present, the account upsert, listing, every fetch and date, and the emails upsert all succeed |
| EmailSync.SyncedTables | app/api/emails/sync/route.ts:44-145 | a successful sync writes the account row under its id and upserts the batch over whatever the tables held, and reports the batch size |
| EmailSync.ResyncIsIdempotent | app/api/emails/sync/route.ts:44-123 | repeating a successful sync with the same inputs gives the same response and leaves both tables as the first run did |
| RouteGate.Middleware | middleware.ts:3-25 | the gate answers only 'next' or a redirect to '/login' |
| RouteGate.IsProtected | middleware.ts:5-9 | specified by ProtectedIffPrefix and RawPrefixExamples |
| RouteGate.ProtectedIffPrefix | middleware.ts:5-9 | a path is protected iff it starts with '/dashboard', '/settings' or '/email-accounts' |
| RouteGate.RawPrefixExamples | middleware.ts:9 | the prefix test ignores segment boundaries: '/dashboardX' and '/settings-old' are protected, '/login' and '/' are not |
| RouteGate.RedirectIffProtectedWithoutToken | middleware.ts:11-17 | the gate redirects iff the path is protected and the session-token cookie is absent or empty |
| RouteGate.AnyNonEmptyTokenPasses | middleware.ts:13-21 | any non-empty session token passes; it is never verified |
| RouteGate.UnprotectedAlwaysPasses | middleware.ts:11-24 | unprotected paths pass whatever the cookies |
| RouteGate.OnlySessionCookieMatters | middleware.ts:13 | two requests with the same session-token cookie get the same answer |
| RouteGate.ReachesGate | middleware.ts:27-29 | specified by ProtectedPathsReachGate, ExcludedPathsBypassGate and ExclusionsAreRawPrefixes |
| RouteGate.HandleRequest | middleware.ts:27-29 | a path the matcher excludes always passes |
| RouteGate.ProtectedPathsReachGate | middleware.ts:5-29 | every protected path reaches the gate, and without a cookie it is redirected |
| RouteGate.ExcludedPathsBypassGate | middleware.ts:28 | a path whose text after '/' the lookahead excludes never reaches the gate |
| RouteGate.ExclusionsAreRawPrefixes | middleware.ts:28 | the exclusions are raw prefixes ('/apiary' is excluded), and the '.' of favicon.ico matches any character |
| Config.ValidateEnv | lib/config.ts:31-50 | the outcome (returns or throws) and the warning lines equal their specification over the required table |
| Config.MissingEntries | lib/config.ts:34-39 | specified by MissingEntriesMembership, NoneMissingIffEmpty and EmptyEnvListsAllInOrder, and computed by the ValidateEnv loop |
| Config.MissingEntriesMembership | lib/config.ts:34-39 | an entry is listed iff it belongs to a required variable that is unset, empty or still its placeholder |
| Config.NoneMissingIffEmpty | lib/config.ts:34-41 | nothing is listed iff no required variable is missing |
| Config.EmptyEnvListsAllInOrder | lib/config.ts:6-39 | with an empty environment every requirement is listed, in table order |
| Config.UnrequiredKeyIgnored | lib/config.ts:34-39 | setting a variable no requirement names does not change the list |
| Config.UncheckedVariablesIgnored | lib/config.ts:6-93 | SESSION_EXPIRES_IN, STRIPE_WEBHOOK_SECRET and both API URLs never affect validation |
| Config.ThrowsIffMissingInProduction | lib/config.ts:41-49 | validateEnv throws iff something is missing and NODE_ENV is 'production', with the joined entries in the message |
| Config.LoadSettings | lib/config.ts:55-93 | the session lifetime and both API URLs are never empty |
| Config.DefaultSettings | lib/config.ts:55-93 | with no variables set every setting is '' except '7d' and the two localhost URLs |
| Config.SettingsTakeVariablesVerbatim | lib/config.ts:55-93 | each of the 14 settings is its variable when that is set and non-empty (placeholder text included), and its default otherwise |
| Config.ProductionSettingsPresent | lib/config.ts:31-93 | when validateEnv returns in production, every required variable is set, non-empty and not its placeholder, and each of the ten settings it backs holds that variable's value |
| OAuthCallback.Decide | app/api/emails/oauth/callback/route.ts:5-55 | specified by ErrorParameterWins, NoCodeSkipsExchange, ExchangeFailureBeforeSession, SessionThenConfig and SuccessIffAllStepsPass: the ordered decision chain of GET |
| OAuthCallback.ErrorParameterWins | app/api/emails/oauth/callback/route.ts:9-13 | an error parameter redirects with error=access_denied whatever else is present |
| OAuthCallback.NoCodeSkipsExchange | app/api/emails/oauth/callback/route.ts:15-17 | without a code the answer is error=no_code and neither Google call is consulted |
| OAuthCallback.ExchangeFailureBeforeSession | app/api/emails/oauth/callback/route.ts:19-54 | a failed exchange gives error=callback_failed even without a session |
| OAuthCallback.SessionThenConfig | app/api/emails/oauth/callback/route.ts:23-36 | after the Google calls, no session gives /login and a missing store URL or key gives error=config |
| OAuthCallback.SuccessIffAllStepsPass | app/api/emails/oauth/callback/route.ts:5-50 | success iff every step passes; the redirect carries the first profile address and both tokens (or '') |
| OAuthCallback.FirstEmail | app/api/emails/oauth/callback/route.ts:42 | specified by FirstEmailCases |
| OAuthCallback.FirstEmailCases | app/api/emails/oauth/callback/route.ts:42 | the address is the first profile address when non-empty, else 'unknown@gmail.com' |
| OAuthCallback.SetParam | app/api/emails/oauth/callback/route.ts:45-48 | specified by SetParamSpec, SetParamKeepsOthers and SetNewParamAppends: URLSearchParams.set on the pair list |
| OAuthCallback.GetParam | app/api/emails/oauth/callback/route.ts:8-9 | specified by GetParamAbsent and GetParamAt: URLSearchParams.get on the pair list |
| OAuthCallback.SetParamSpec | app/api/emails/oauth/callback/route.ts:45-48 | after set, get of the name gives the new value and the other pairs are unchanged and in order |
| OAuthCallback.WithoutIdempotent | app/api/emails/oauth/callback/route.ts:45-48 | removing a name twice is removing it once |
| OAuthCallback.SetParamKeepsOthers | app/api/emails/oauth/callback/route.ts:45-48 | set leaves get of every other name unchanged |
| OAuthCallback.WithoutKeepsOthers | app/api/emails/oauth/callback/route.ts:45-48 | removing one name leaves get of every other name unchanged |
| OAuthCallback.GetParamAbsent | app/api/emails/oauth/callback/route.ts:8-9 | get of a name no pair carries is null |
| OAuthCallback.GetParamAt | app/api/emails/oauth/callback/route.ts:8-9 | get returns the value of the first pair with the name |
| OAuthCallback.SetNewParamAppends | app/api/emails/oauth/callback/route.ts:45-48 | setting a name not yet present appends the pair |
| OAuthCallback.SearchParams.Set | app/api/emails/oauth/callback/route.ts:45-48 | the parameter list becomes set's result on the old list |
| OAuthCallback.SuccessUrl | app/api/emails/oauth/callback/route.ts:44-50 | the success URL is /email-accounts with success, email, access_token and refresh_token, each readable back, in that order |
| OAuthCallback.Callback | app/api/emails/oauth/callback/route.ts:5-55 | the redirect URL matches the decision: an error reason, /login, or the success URL carrying the address and tokens |
| EmailCard.UrgencyColor | components/email-card.tsx:48-52 | every score maps to one of the three bands |
| EmailCard.UrgencyBands | components/email-card.tsx:48-52 | red iff score > 80, yellow iff 50 < score <= 80, green iff score <= 50 |
| EmailCard.UrgencyMonotone | components/email-card.tsx:48-52 | a higher score never falls into a lower band |
| EmailCard.DashboardBarColor | app/dashboard/page.tsx:155-157 | specified by BarMatchesCard: the same band as the card's UrgencyColor for every score |
| EmailCard.BarMatchesCard | app/dashboard/page.tsx:155-157 | the dashboard's urgency bar and the card put every score in the same band |
| EmailCard.DefaultsAreDrawnLow | components/email-card.tsx:36-52 | a defaulted score (50) and the fallback record are drawn green, and 'Autre' yellow |
| EmailCard.CategoryColor | components/email-card.tsx:36-46 | the colour is one of the table's colours or the gray default |
| EmailCard.CategoryColorTable | components/email-card.tsx:37-45 | each of the six categories gets its table colour; any other string gets gray |
| EmailCard.DefaultColorIffUnknownOrNewsletter | components/email-card.tsx:41-45 | a category is drawn gray iff it is 'Newsletter' or not one of the other five |
| EmailCard.CategoryLookupIsCaseSensitive | components/email-card.tsx:45 | 'urgent' is gray while 'Urgent' is not |
| EmailCard.CategoryColorAsWritten | components/email-card.tsx:45 | for names not inherited from Object.prototype, the lookup as written equals the corrected one |
| EmailCard.InheritedCategoryEscapesPalette | components/email-card.tsx:37-45 | 'toString' and '__proto__' yield a non-string under the lookup as written but gray under the corrected one |
| EmailCard.CategoryIcon | components/email-card.tsx:22-34 | specified by CategoryIconCases |
| EmailCard.CategoryIconCases | components/email-card.tsx:22-34 | FileText iff Devis or Facture, AlertCircle iff Urgent, Mail iff Newsletter, Zap otherwise |
| JsBuiltins.AllOk | app/api/emails/sync/route.ts:76-117 | Promise.all over a batch succeeds iff every element does, and then holds every element's result in order |
| JsBuiltins.EncodeUtf16Append | app/api/emails/sync/route.ts:111 | the UTF-16 encoding of a concatenation is the concatenation of the encodings |
| JsBuiltins.AstralLength | app/api/emails/sync/route.ts:111 | text made only of characters outside the Basic Multilingual Plane takes two code units per character |
| JsBuiltins.TrimKeepsAbsent | app/api/emails/sync/route.ts:110 | trimming only removes characters: one absent from the text is absent from the result, which is no longer |
| JsBuiltins.TrimIdempotent | app/api/emails/sync/route.ts:110 | trimming twice is trimming once |
| JsBuiltins.BeforeFirstSplit | app/api/emails/sync/route.ts:110 | split(c)[0] is the text up to the first c, or the whole text when there is none |

## Left out

- I/O of every kind: console output (except the warning lines of validateEnv), HTTP request/response plumbing, Next.js redirects as objects. Only the URL path and query are modelled.
- The OpenAI, Gmail, Google OAuth and People API clients, `JSON.parse`, base64 decoding, and `Date` parsing and printing: these are parameters, and the model proves what holds for every answer they can give.
- AiEngine.Normalise: JSON values of other types (numbers as category, strings as score, fractional or NaN scores) are not modelled. The score is an optional integer and the text fields are optional strings.
- AiEngine.AnalyzeEmail: the client is created once at module load with the configured key. Any failure it causes is one of the model's call failures.
- EmailSync.BuildRows: `Promise.all` runs the fetches concurrently. The model evaluates them in order and reports the first failure by position, while the source reports the first failure in time. Both fail the whole batch and write no emails.
- EmailSync.Database.UpsertEmails: a batch that carries the same key twice is applied row by row, the later row winning. Postgres rejects such a batch ("cannot affect row a second time"). The model lets the store's error answer stand for that case.
- EmailSync.Sync: `createClient` and `getGmailClient` are assumed not to throw. The `details` field of the database-error response and the `error instanceof Error` distinction in the catch block are not modelled. A thrown error's message is passed through.
- EmailSync.Sync: the `validateEnv()` call that runs when lib/config.ts is loaded (lib/config.ts:95-99) is not modelled. The sync route and the AI engine import that module, so in production an environment that validation rejects makes loading fail, every request fails before `POST` runs, and the 'Server configuration error' branch cannot be reached. SyncSpec accepts any settings, so its results describe the route only once validation has returned; ValidatedProductionPassesConfigCheck states that settings from such an environment always pass the route's own check.
- EmailSync.Sync: `is_read` is read from the listed message's labelIds, as the source does; the listing carries only ids. So when the list response lacks labels, every message counts as read. The model reproduces this and does not correct it.
- JsBuiltins.ToLowerAscii: only ASCII letters are lowered. It is applied only to the fixed variable names of the required table, which are ASCII.
- OAuthCallback.Decide: `createClient` is assumed not to throw. In the source it runs inside the `try`, so a client library that rejects a malformed store URL (such as an unedited placeholder) would give error=callback_failed where the model answers success.
- Text other than the email body is a sequence of Unicode scalar values, not of UTF-16 code units: a header holding a lone surrogate cannot be represented. Only the body's 1000-unit cut depends on the unit, and it is modelled on code units.
- OAuthCallback.Callback: `new URL(.., request.url)` resolution against the request's origin and the percent-encoding of query values are not modelled.
- RouteGate.HandleRequest: the matcher is modelled as its negative lookahead on the text after the leading '/'. Next.js's other matcher handling (locales, `_next/data`, trailing slashes) is not.
- The rest of the application (login and signup, the Stripe webhook, listing routes, pages other than the card and the dashboard's bar) is not part of this model.

## Findings

| source | as written | input that shows it | evidently intended | confidence | as-written member | corrected member |
|---|---|---|---|---|---|---|
| components/email-card.tsx:36-46 | `colors[cat] \|\| default` reads inherited members of the object literal | a category of 'toString' or '__proto__' (the model's category passes through unchecked) yields a function or an object, not a class string | unknown categories get 'bg-gray-100 text-gray-800' | not executed | EmailCard.CategoryColorAsWritten | EmailCard.CategoryColor |
