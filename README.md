# ghost-listmonk-connector, modelled in Dafny

The connector sits between a Ghost blog and a Listmonk mailing-list server. Ghost sends a
webhook for each member or post event. The connector does the following:

- logs the webhook and checks its HMAC signature;
- classifies the payload into one of six triggers;
- selects the owner's enabled rules ("sons") with that trigger;
- turns each action of a rule into a queued task: a transactional email, a subscriber
  update, or a scheduled campaign.

Each run and each action outcome is written to execution logs, and per-rule statistics are
computed over a time window. Rules are kept in an owner-scoped table behind HTTP handlers
that enforce a per-subscription quota. There is also an alternative store with a separate
actions table. Sign-in uses single-use magic-link tokens, and the service configuration is
read from `.env.local` and the environment.

The model follows the source file by file:

| Dafny file | module | models |
|---|---|---|
| `duration_parser.dfy` | `DurationParser` | `utils/duration_parser.go` (pure) |
| `son_model.dfy` | `SonModel` | `models/son.go`: enums and the minute-based Duration codec |
| `users.dfy` | `Users` | `models/user.go`: the user record and its levels |
| `schemas.dfy` | `Schemas` | `ui/lib/schemas.ts`: the zod schemas as predicates over JSON |
| `webhook_handler.dfy` | `WebhookHandling` | `handlers/webhook_handler.go`: classification, signature check, the `HandleWebhook` steps |
| `son_executor.dfy` | `SonExecution` | `services/son_executor.go`: the run loop, the three handlers, the parameter extractors |
| `execution_logger.dfy` | `ExecutionLogging` | `services/son_execution_logger.go`: both log tables and the statistics |
| `webhook_logger.dfy` | `WebhookLogging` | `services/webhook_logger_service.go`: the webhook log table |
| `son_storage.dfy` | `SonStore` | `services/son_storage.go`: the rules table (actions as a JSON column) |
| `son_database.dfy` | `SonDatabase` | `services/database.go`: the alternative store with an actions table and transactions |
| `son_handlers.dfy` | `SonHandling` | `handlers/son_handlers.go`: quota, ownership and not-found decisions |
| `webhook_log_handler.dfy` | `WebhookLogHandling` | `handlers/webhook_log_handler.go`: paging defaults, `next_offset`, ownership |
| `magic_link.dfy` | `MagicLinks` | `services/magic_link_service.go`: expiring single-use tokens |
| `config.dfy` | `Configuration` | `utils/config.go`: `.env.local` parsing, environment override, validation |

The shared modules are the following:

- `wrappers.dfy`: Option and Result.
- `go_time.dfy`: Go's duration units.
- `numeric.dfy`: int64 wrap-around, `%d` printing, `fmt.Sscanf("%d%s")` and `strconv.Atoi`.
- `json_value.dfy`: a JSON datatype.
- `rows.dfy`: SQL `WHERE`, `ORDER BY ... DESC` and `LIMIT/OFFSET` over a table kept as a sequence.

Tables the services update become classes whose fields are sequences or maps of rows.
Every method is proved against a specification function of the old state, and the
source's promises are lemmas about those functions.

Some inputs are parameters of the model rather than computed by it:

- everything the program gets from outside: the clock (`now`), generated ids and tokens,
  the request body and headers, the environment and the lines of `.env.local`;
- the outcome of side calls the model does not follow: the activity log, the queue, and
  the Listmonk client;
- libraries the model treats as uninterpreted functions: Go's `time.ParseDuration` and
  `Duration.String`, RFC 3339 parsing and formatting, hex HMAC-SHA256, and JSON
  encoding and decoding of bytes.

## Model

| member | source | states |
|---|---|---|
| `GoTime.Milliseconds` | services/webhook_logger_service.go:60 | whole milliseconds of a duration, truncated toward zero for either sign |
| `Numeric.Wrap64` | utils/duration_parser.go:26-28 | int64 arithmetic wraps modulo 2^64 and is the identity inside the int64 range |
| `Numeric.NatToStringRoundTrip` | utils/duration_parser.go:37-40 | the digits `%d` prints read back as the same number |
| `Numeric.ScanIntWord` | utils/duration_parser.go:19-22 | a successful `Sscanf("%d%s")` gives an int64 and a non-empty word |
| `Numeric.ScanPrintedIntWord` | utils/duration_parser.go:19 | `Sscanf("%d%s")` reads back any printed int64 followed directly by a word |
| `Numeric.AtoiValue` | handlers/webhook_log_handler.go:33-34 | `strconv.Atoi` with its error ignored always yields an int64: the signed bound when the leading digits exceed 2^64-1, else 0 for any other syntax error, else the value clamped to int64 |
| `Numeric.AtoiOverflowAfterSign` | handlers/webhook_log_handler.go:33-34 | leading digits above 2^64-1 followed by anything that is not a digit read as MinInt64 after a minus sign and as MaxInt64 otherwise |
| `Numeric.AtoiSyntaxError` | handlers/webhook_log_handler.go:33-34 | a text that is not an optionally signed run of digits, and whose leading digits stay within 2^64-1, reads as 0 |
| `Numeric.ScanNoUnit` | utils/duration_parser.go:19-22 | `Sscanf("%d%s")` fails on a printed int64 with nothing after it |
| `Numeric.ScanNoLeadingDigit` | utils/duration_parser.go:19-22 | `Sscanf("%d%s")` fails when no digit follows the optional sign |
| `Numeric.ScanOverflow` | utils/duration_parser.go:19-22 | `Sscanf("%d%s")` fails when the number it reads is outside int64 |
| `Numeric.ScanSignedOverflow` | utils/duration_parser.go:19 | the `%d` verb refuses a number outside int64 |
| `Numeric.ScanNewlineFirst` | utils/duration_parser.go:19-22 | `Sscanf("%d%s")` fails on a newline before the number |
| `Numeric.AtoiOfPrinted` | handlers/webhook_log_handler.go:33-34 | `strconv.Atoi` reads back every printed int64 |
| `Rows.Page` | services/webhook_logger_service.go:80-86 | LIMIT/OFFSET: at most `limit` rows, none past the end, the i-th being row offset+i |
| `Rows.NewestFirst` | services/webhook_logger_service.go:80-86 | every row of the selection is a table row the WHERE keeps, and every kept row is in it |
| `Rows.NewestFirstOrdered` | services/webhook_logger_service.go:84 | with non-decreasing insert times the selection is ordered newest first |
| `Rows.Where` | services/son_execution_logger.go:100-105 | every row of the selection is a table row the WHERE keeps, and every kept row is in it |
| `Rows.WhereConcat` | services/database.go:150-162 | selecting from a table with rows appended is the old selection followed by the new rows' |
| `Rows.WhereAppend` | services/son_execution_logger.go:100-105 | a row appended to the table joins the end of the selection when kept, so the selection keeps table order |
| `Rows.NewestFirstStep` | services/webhook_logger_service.go:80-86 | taking one older row into account appends it to the newest-first order when kept |
| `Rows.WherePrepend` | services/son_execution_logger.go:100-105 | a kept row put before the table comes first in the selection; a dropped one is absent |
| `Rows.WhereCount` | services/son_execution_logger.go:100-105 | each kept row occurs in the selection exactly as often as in the table, every other row never |
| `Rows.NewestFirstIsReversedWhere` | services/webhook_logger_service.go:80-86 | newest first is the table-order selection read backwards |
| `Rows.NewestFirstCount` | services/webhook_logger_service.go:80-86 | each kept row occurs newest-first exactly as often as in the table, every other row never |
| `DurationParser.ParseDuration` | utils/duration_parser.go:8-32 | a text Go's parser accepts is returned unchanged; a d/w result is an int64; the result is "invalid duration format" exactly when Go's parser refuses the text and `Sscanf("%d%s")` fails |
| `DurationParser.BareNumberInvalid` | utils/duration_parser.go:19-22 | a bare number Go refuses (no unit) is "invalid duration format" |
| `DurationParser.LeadingNonDigitInvalid` | utils/duration_parser.go:19-22 | a text Go refuses that does not start with an optionally signed digit is "invalid duration format" |
| `DurationParser.OverflowingCountInvalid` | utils/duration_parser.go:19-22 | a count outside int64 is "invalid duration format" |
| `DurationParser.NewlineFirstInvalid` | utils/duration_parser.go:19-22 | a newline before the number is "invalid duration format" |
| `DurationParser.DayProduct` | utils/duration_parser.go:26 | the two wrapping products give exactly n days when that fits an int64 |
| `DurationParser.WeekProduct` | utils/duration_parser.go:28 | the three wrapping products give exactly n weeks when that fits an int64 |
| `DurationParser.DaySuffix` | utils/duration_parser.go:19-26 | "<n>d" parses to n × 24 h, sign included ("-2d" is −48 h) |
| `DurationParser.WeekSuffix` | utils/duration_parser.go:27-28 | "<n>w" parses to n × 7 × 24 h |
| `DurationParser.NoLeadingInteger` | utils/duration_parser.go:19-22 | a text with no digit that Go refuses is "invalid duration format" |
| `DurationParser.OtherUnit` | utils/duration_parser.go:29-30 | an integer followed by any word other than d or w is "unsupported duration unit" naming the word |
| `DurationParser.UnderscoreEndsNumber` | utils/duration_parser.go:19-30 | `%d` reads decimal digits only, so "1_0d" is the unsupported unit "_0d" |
| `DurationParser.FormatWeeks` | utils/duration_parser.go:34-37 | n ≥ 1 whole weeks format as "<n>w" |
| `DurationParser.WeeksRoundTrip` | utils/duration_parser.go:8-43 | "<n>w" parses and formats back to itself for n ≥ 1 |
| `DurationParser.DaysRoundTrip` | utils/duration_parser.go:8-43 | "<n>d" parses and formats back to itself for 1 ≤ n ≤ 6 |
| `DurationParser.DaysFoldIntoWeeks` | utils/duration_parser.go:24-40 | "<n>d" with n ≥ 7 formats as ⌊n/7⌋ weeks ("10d" becomes "1w") |
| `DurationParser.FormatDuration` | utils/duration_parser.go:34-43 | a week or more prints digits and "w", a day or more digits and "d", with no leading zero; anything shorter is Go's own text |
| `SonModel.ParseTrigger` | models/son.go:12-19 | a recognised text is the name of the trigger returned |
| `SonModel.TriggerNameRoundTrip` | models/son.go:12-19 | every trigger is recognised from its name |
| `SonModel.TriggerSetIsSix` | models/son.go:12-19 | exactly six distinct trigger names, page_published among them, and only they parse |
| `SonModel.ActionNameRoundTrip` | models/son.go:21-25 | every action kind is recognised from its name |
| `SonModel.ParseAction` | models/son.go:21-25 | a recognised text is the name of the action kind returned |
| `SonModel.ActionSetIsThree` | models/son.go:21-25 | exactly three distinct action names, and only they parse |
| `SonModel.MarshalDuration` | models/son.go:45-47 | a delay serialises as its length in minutes |
| `SonModel.UnmarshalDuration` | models/son.go:49-68 | a string goes to Go's parser with its error passed on; other non-number kinds are "invalid duration" |
| `SonModel.UnmarshalNumber` | models/son.go:54-57 | a JSON number n decodes to trunc(n) minutes |
| `SonModel.DurationRoundTrip` | models/son.go:45-57 | a whole number of minutes survives encode then decode |
| `SonModel.DurationLosesSeconds` | models/son.go:45-57 | 90 s encodes as 1.5 and decodes as 1 min |
| `Schemas.EmptyNameRejected` | ui/lib/schemas.ts:23 | an empty name fails all four schemas |
| `Schemas.FormTriggersAreModelTriggers` | ui/lib/schemas.ts:24-30 | the form's triggers are the back end's six minus page_published |
| `Schemas.CreatedTriggerKnown` | ui/lib/schemas.ts:24-30 | a creatable rule names a known trigger other than page_published |
| `Schemas.NegativeDelayRejected` | ui/lib/schemas.ts:31 | a negative delay fails all four schemas |
| `Schemas.ActionKindKnown` | ui/lib/schemas.ts:16 | an accepted action's type is one of the three action kinds |
| `Schemas.ParametersAreAnyObject` | ui/lib/schemas.ts:4-10 | action parameters accept exactly the JSON objects |
| `Schemas.NoActions` | ui/lib/schemas.ts:32 | a rule without actions is editable but neither valid nor creatable |
| `Schemas.SchemasNest` | ui/lib/schemas.ts:55-60 | a valid rule is creatable, and with an id a valid update |
| `Schemas.UpdateNeedsOnlyId` | ui/lib/schemas.ts:58-60 | `{id}` alone is a valid update; an object without id is not |
| `Schemas.ValidIsEditable` | ui/lib/schemas.ts:37-51 | every valid rule passes the editable schema |
| `Schemas.SonSchema` | ui/lib/schemas.ts:21-35 | sonSchema as a predicate over JSON; its properties are the lemmas above |
| `Schemas.EditableSonSchema` | ui/lib/schemas.ts:37-51 | editableSonSchema as a predicate over JSON |
| `Schemas.CreateSonSchema` | ui/lib/schemas.ts:55 | createSonSchema: sonSchema without id and times |
| `Schemas.UpdateSonSchema` | ui/lib/schemas.ts:58-60 | updateSonSchema: every field optional, a string id required |
| `WebhookHandling.IndexOf` | handlers/webhook_handler.go:220 | the first occurrence of the separator at or after `from`, or none |
| `WebhookHandling.TrimPrefix` | handlers/webhook_handler.go:226-227 | the prefix is removed exactly when present |
| `WebhookHandling.SplitTwo` | handlers/webhook_handler.go:220 | "a, b" with no comma inside splits into exactly [a, b] |
| `WebhookHandling.OnePartRefused` | handlers/webhook_handler.go:220-224 | a header without ", " never verifies |
| `WebhookHandling.VerifySignature` | handlers/webhook_handler.go:218-244 | a signature verifies only when the header splits into exactly two parts |
| `WebhookHandling.GhostHeader` | handlers/webhook_handler.go:218-244 | "sha256=h, t=ts" verifies iff h is the hex HMAC of body followed by ts |
| `WebhookHandling.DetermineTriggerType` | handlers/webhook_handler.go:246-290 | every failure is the UnknownTriggerType error |
| `WebhookHandling.MemberClassified` | handlers/webhook_handler.go:247-258 | a member object alone decides: updated with a non-empty previous, created with only current, deleted otherwise |
| `WebhookHandling.PostClassified` | handlers/webhook_handler.go:260-275 | without a member, post status published/scheduled gives post_published/post_scheduled |
| `WebhookHandling.PageOrUnknown` | handlers/webhook_handler.go:277-289 | otherwise a published page is page_published and anything else UnknownTriggerType |
| `WebhookHandling.Matching` | handlers/webhook_handler.go:101-110 | the matched rules are exactly the enabled rules with the trigger |
| `WebhookHandling.SelectSons` | handlers/webhook_handler.go:101-110 | the loop selects the matching rules in list order and counts them |
| `WebhookHandling.DisabledNeverRuns` | handlers/webhook_handler.go:103 | a rule runs iff it is enabled and has the trigger |
| `WebhookHandling.WebhookHandler.HandleWebhook` | handlers/webhook_handler.go:37-124 | 404 with no log for an unknown endpoint; otherwise one log row before the signature check, whose final status is 401, 400, 400 or 200 step by step; 200 counts the matching enabled rules |
| `WebhookLogging.FirstValues` | services/webhook_logger_service.go:23-26 | the stored header map keeps every name with its first value |
| `WebhookLogging.Completed` | services/webhook_logger_service.go:56-60 | the update sets status, response and duration of the rows with the id and nothing else |
| `WebhookLogging.Listing` | services/webhook_logger_service.go:70-111 | negative limit or offset fails; otherwise the total is the user's log count and the page holds min(limit, total − offset) of them (none past the end), the i-th being the user's (offset+i)-th newest |
| `WebhookLogging.Detail` | services/webhook_logger_service.go:113-155 | ErrNoRows iff no row has the id; a scan error for a log whose response_body is still NULL; otherwise a stored row with that id and a response |
| `WebhookLogging.DetailOfStored` | services/webhook_logger_service.go:113-155 | with unique ids, a stored log's detail is the log once it has a response, and the scan error before |
| `WebhookLogging.WebhookLogger.CreateWebhookLog` | services/webhook_logger_service.go:21-46 | one new row with the fresh id, status 200, duration 0, first header values; a taken id changes nothing |
| `WebhookLogging.WebhookLogger.UpdateWebhookLog` | services/webhook_logger_service.go:48-68 | the rows become `Completed` with the duration in whole milliseconds |
| `WebhookLogging.WebhookLogger.GetWebhookLogs` | services/webhook_logger_service.go:70-111 | answers `Listing` of the table |
| `WebhookLogging.WebhookLogger.GetWebhookLogDetails` | services/webhook_logger_service.go:113-155 | answers `Detail` of the table, the NULL-response scan error included, and changes nothing |
| `WebhookLogging.CompletionKeepsRequest` | services/webhook_logger_service.go:56-60 | an update keeps the ids unique and every request column unchanged |
| `WebhookLogging.ListingOrdered` | services/webhook_logger_service.go:80-86 | the list holds only the user's logs, each exactly as often as the table does, newest first when the clock never ran back |
| `WebhookLogging.ListingUnique` | services/webhook_logger_service.go:80-86 | with unique ids in the table, no log appears twice in the list |
| `ExecutionLogging.SetStatus` | services/son_execution_logger.go:124-131 | only status and message of rows with that id change |
| `ExecutionLogging.Replay` | services/son_execution_logger.go:48-59 | a series of action logs keeps the number and ids of the runs |
| `ExecutionLogging.WindowStart` | services/son_execution_logger.go:163 | `now.Add(-d)` is now − d, wrapping for the most negative d |
| `ExecutionLogging.SonExecutionLogger.LogSonExecution` | services/son_execution_logger.go:36-46 | one new run row with the fresh id and given status, returned; a taken id changes nothing |
| `ExecutionLogging.SonExecutionLogger.LogActionExecution` | services/son_execution_logger.go:48-59 | one action row appended; the runs become `AfterActionLog` |
| `ExecutionLogging.SonExecutionLogger.UpdateSonExecutionStatus` | services/son_execution_logger.go:124-131 | the runs become `SetStatus` and the action rows are unchanged |
| `ExecutionLogging.SonExecutionLogger.GetSonExecutionLogs` | services/son_execution_logger.go:61-97 | negative limit or offset fails; otherwise the total counts the runs of the user's rules and the page is at most `limit` of them newest first from `offset` |
| `ExecutionLogging.SonExecutionLogger.GetActionExecutionLogs` | services/son_execution_logger.go:99-122 | exactly the action rows of that run, in the order written |
| `ExecutionLogging.SonExecutionLogger.GetSonStats` | services/son_execution_logger.go:133-187 | a timeframe the parser refuses is the error; otherwise the statistics since `now.Add(-d)` |
| `ExecutionLogging.SonExecutionLogger.StatsSince` | services/son_execution_logger.go:152-178 | the row loop returns `Stats` of the table |
| `ExecutionLogging.FailingActionFlipsParent` | services/son_execution_logger.go:54-56 | an action log touches its run iff it failed, then the run is failure with the same message |
| `ExecutionLogging.FailureIsAbsorbing` | services/son_execution_logger.go:54-56 | through action logs alone a failed run stays failed |
| `ExecutionLogging.ReplayStatus` | services/son_execution_logger.go:48-59 | a run ends as failure iff one of its actions failed, and keeps its status otherwise |
| `ExecutionLogging.StatsBounded` | services/son_execution_logger.go:152-163 | every statistics line has ≥ 1 run and success + failure ≤ runs |
| `ExecutionLogging.StatsOnlyOwnRules` | services/son_execution_logger.go:152-163 | at most one line per rule; each line is a rule of the user with a run in the window, carrying that rule's name and its counts over the window |
| `ExecutionLogging.StatsCoverOwnRules` | services/son_execution_logger.go:152-163 | every rule of the user with a run in the window has its line |
| `ExecutionLogging.StatOfCounts` | services/son_execution_logger.go:153-156 | a line's executions, success and failure are the numbers of the rule's runs in the window, of those with status success, and of those with status failure |
| `ExecutionLogging.StatOf` | services/son_execution_logger.go:153-156 | a line carries the rule's name and the window's size, and success + failure never exceed it |
| `ExecutionLogging.Stats` | services/son_execution_logger.go:152-178 | at most one line per rule, each with at least one run |
| `SonExecution.EffectiveDelay` | services/son_executor.go:98-102 | a delay that fails to parse becomes 0 |
| `SonExecution.DispatchAction` | services/son_executor.go:72-111 | one action log: "failure" on marshal error, unknown kind or enqueue error, otherwise "queued" with the task |
| `SonExecution.DispatchOne` | services/son_executor.go:73-111 | the loop body computes `DispatchAction` |
| `SonExecution.Dispatches` | services/son_executor.go:72-112 | one dispatch per action, in order |
| `SonExecution.ActionLogs` | services/son_executor.go:72-112 | one action log per action, in order |
| `SonExecution.Queued` | services/son_executor.go:104-110 | only tasks that were enqueued are returned |
| `SonExecution.SonExecutor.ExecuteSon` | services/son_executor.go:65-113 | a failed run insert does nothing else; otherwise one action log per action and the run's status replayed from them |
| `SonExecution.SonExecutor.RunActions` | services/son_executor.go:72-112 | the loop appends `ActionLogs` and replays `Outcomes` onto the runs |
| `SonExecution.RunFailsIffSomeActionFails` | services/son_executor.go:65-113 | a recorded run ends as failure iff some action failed, and as success otherwise |
| `SonExecution.QueuedShareDelay` | services/son_executor.go:98-104 | every queued task has the run's one delay and a known task type |
| `SonExecution.DecodeTask` | services/son_executor.go:116-139 | an undecodable payload is "failed to unmarshal payload"; success needs an object or null |
| `SonExecution.TaskRoundTrip` | services/son_executor.go:73-77 | a handler decodes exactly what the run encoded |
| `SonExecution.SubscriberEmail` | services/son_executor.go:397-414 | data.member.current.email when all three steps hold, each failure with its own error |
| `SonExecution.Headers` | services/son_executor.go:416-433 | absent headers are empty; a failure is "error unmarshalling headers" |
| `SonExecution.AdditionalData` | services/son_executor.go:435-452 | absent data is empty; present, only an object or null decodes |
| `SonExecution.Merged` | services/son_executor.go:454-466 | every key of both maps, the second map's value on a conflict |
| `SonExecution.Overlay` | services/son_executor.go:457-463 | one copy loop puts `top` over `base` |
| `SonExecution.MergeData` | services/son_executor.go:454-466 | the two loops compute `Merged` |
| `SonExecution.EmailRequestOf` | services/son_executor.go:255-280 | template_id must be a number; the request has the member email and the merged data |
| `SonExecution.SonExecutor.HandleSendTransactionalEmail` | services/son_executor.go:115-149 | a payload error returns with no log; otherwise one action log, failure iff Listmonk fails, and that error returned |
| `SonExecution.TransactionalEmail` | services/son_executor.go:255-280 | computes `EmailRequestOf` |
| `SonExecution.NumericIds` | services/son_executor.go:301-310 | the numeric entries of `lists`, in order |
| `SonExecution.NumericIdsAllNumbers` | services/son_executor.go:301-310 | an all-number list keeps every entry, truncated |
| `SonExecution.NumericIdsSkip` | services/son_executor.go:304-307 | exactly the non-number entries are dropped |
| `SonExecution.GeoAttributes` | services/son_executor.go:312-327 | either no attributes or exactly the five geolocation keys |
| `SonExecution.SubscriberRequestOf` | services/son_executor.go:282-331 | status is always "enabled"; lists are the numeric entries; a missing member object is an error |
| `SonExecution.ManageSubscriber` | services/son_executor.go:282-331 | the list loop computes `SubscriberRequestOf` |
| `SonExecution.SonExecutor.HandleManageSubscriber` | services/son_executor.go:151-185 | a payload error returns with no log; otherwise one action log, failure iff the call fails |
| `SonExecution.SendAt` | services/son_executor.go:356-370 | an error only for a non-empty text that does not parse; a result other than now+5 min is the given time |
| `SonExecution.SendAtRule` | services/son_executor.go:356-370 | absent, empty or past means now+5 min; a future time is kept |
| `SonExecution.ListIds` | services/son_executor.go:384-391 | on success every entry is a number, converted in place |
| `SonExecution.ListIdsFirstFailure` | services/son_executor.go:385-389 | the first bad prefix decides the error |
| `SonExecution.ListIdsNamesFirstBad` | services/son_executor.go:385-389 | the error names the index of the first non-number |
| `SonExecution.ListIdsAllNumbers` | services/son_executor.go:384-391 | a list of numbers always converts |
| `SonExecution.CampaignRequestOf` | services/son_executor.go:333-395 | content_type defaults to "html"; the request carries the name with its suffix |
| `SonExecution.CampaignErrorOrder` | services/son_executor.go:335-355 | name, subject, lists and template_id are checked in that order, each with its own error |
| `SonExecution.CreateCampaign` | services/son_executor.go:333-395 | the list-id loop computes `CampaignRequestOf` |
| `SonExecution.PostData` | services/son_executor.go:219-227 | the template sees exactly the seven post fields |
| `SonExecution.EmailEnd` | services/son_executor.go:141-148 | the logged failure is the returned error |
| `SonExecution.SubscriberEnd` | services/son_executor.go:177-184 | the logged failure is the returned error |
| `SonExecution.CampaignEnd` | services/son_executor.go:213-252 | logged failure iff an error is returned; success is logged as create_campaign |
| `SonExecution.SonExecutor.HandleCreateCampaign` | services/son_executor.go:187-253 | one action log per decoded task that reaches a Listmonk step, as `CampaignEnd` says |
| `SonStore.EncodeActions` | services/son_storage.go:33 | one JSON object per action, in order |
| `SonStore.DecodeActions` | services/son_storage.go:74 | null is the empty list; a non-array fails |
| `SonStore.DecodeAction` | services/son_storage.go:74 | an object with a string type and object parameters decodes to that action; a non-object, non-null value fails |
| `SonStore.ActionsRoundTrip` | services/son_storage.go:33-82 | the actions column decodes to the actions stored |
| `Rows.FindBy` | services/son_storage.go:60-63 | a primary-key lookup: the position of a row with the id, or none iff no row has it (used for both the `sons` rows of the storage service and those of the database layer) |
| `SonStore.FindOwned` | services/son_storage.go:91 | the row matching both id and owner, or none iff no row does |
| `SonStore.Lookup` | services/son_storage.go:56-82 | ErrSonNotFound iff no row has the id; a found rule has that id |
| `SonStore.Listed` | services/son_storage.go:142-176 | only the user's rules, at most one per row |
| `SonStore.SonStorage.Create` | services/son_storage.go:32-54 | the row is appended with both times `now`; a taken id fails; an activity failure does not fail |
| `SonStore.SonStorage.Get` | services/son_storage.go:56-82 | answers `Lookup` |
| `SonStore.SonStorage.Update` | services/son_storage.go:84-115 | only the row matching id and owner is overwritten; none gives ErrSonNotFound |
| `SonStore.SonStorage.Delete` | services/son_storage.go:117-140 | only the row matching id and owner is removed; none gives ErrSonNotFound |
| `SonStore.SonStorage.List` | services/son_storage.go:142-176 | the loop answers `Listed`, skipping undecodable rows, empty rather than nil |
| `SonStore.GetAfterCreate` | services/son_storage.go:32-82 | Get after Create returns the rule as given, stamped with the insert time |
| `SonStore.UpdateTouchesOnlyMatch` | services/son_storage.go:90-93 | an update leaves every other row and the primary key intact |
| `SonStore.GetAfterDelete` | services/son_storage.go:117-132 | after Delete, Get of that id is ErrSonNotFound |
| `SonStore.ForeignRuleUntouchable` | services/son_storage.go:84-140 | another owner's rule matches neither update nor delete |
| `SonStore.ListedAfterCreate` | services/son_storage.go:142-176 | a created rule is listed for its owner only, at the end (the model's row order) |
| `SonStore.UpdateAsWritten` | services/son_storage.go:99-107 | the changed-rows reading succeeds only on an (id, owner) match |
| `SonStore.UnchangedSaveReportsNotFound` | services/son_storage.go:99-107 | re-saving an unchanged rule within the same second reports ErrSonNotFound |
| `SonDatabase.DecodeParameters` | services/database.go:118 | the parameters text decodes iff it is an object or null |
| `SonDatabase.DecodeRows` | services/database.go:111-123 | one action per row, same kinds, or the decoding error |
| `SonDatabase.Encoded` | services/database.go:75-87 | one action row per action, numbered on, tagged with the rule id |
| `SonDatabase.EncodedRoundTrip` | services/database.go:75-123 | the inserted action rows decode back to the actions |
| `SonDatabase.Lookup` | services/database.go:92-126 | ErrSonNotFound iff no row has the id |
| `SonDatabase.Listed` | services/database.go:195-235 | every rule in row order with its id, or the first decoding error |
| `SonDatabase.Revised` | services/database.go:137-140 | the update changes name, trigger, delay and update time of rows with the id only |
| `SonDatabase.Database.InsertActions` | services/database.go:75-87 | the loop appends `Encoded` and advances the row counter |
| `SonDatabase.Database.CreateSon` | services/database.go:56-90 | fresh id with created = updated; rule row and action rows inserted all or nothing |
| `SonDatabase.Database.GetSon` | services/database.go:92-126 | answers `Lookup` |
| `SonDatabase.Database.ScanActions` | services/database.go:111-123 | the scan loop computes `DecodeRows` |
| `SonDatabase.Database.UpdateSon` | services/database.go:128-165 | row revised; action rows of the id replaced wholesale |
| `SonDatabase.Database.DeleteSon` | services/database.go:167-193 | rule and its actions removed; a missing rule is ErrSonNotFound and rolls back |
| `SonDatabase.Database.ListSons` | services/database.go:195-235 | the nested loops answer `Listed` |
| `SonDatabase.DecodeRowsFirstFailure` | services/database.go:111-123 | the first failing row decides the error |
| `SonDatabase.ListedFirstFailure` | services/database.go:212-232 | the first failing rule decides the error |
| `SonDatabase.CreatedReadsBack` | services/database.go:56-126 | a created rule reads back with its fields and actions |
| `SonDatabase.AppendedActionsOf` | services/database.go:75-87 | a rule without action rows has exactly the rows inserted for it |
| `SonDatabase.OrphansAdopted` | services/database.go:137-162 | action rows left by an update of an unknown id are adopted by a later rule with that id |
| `SonDatabase.UpdateReplacesActions` | services/database.go:145-162 | after an update the rule's actions are exactly the new ones |
| `SonDatabase.UpdateKeepsOtherActions` | services/database.go:145 | other rules' actions are untouched |
| `SonDatabase.UpdateOfUnknownIdLeavesOrphans` | services/database.go:137-164 | updating an unknown id succeeds, changes no rule and leaves action rows |
| `SonDatabase.ListedStep` | services/database.go:212-232 | listing one more rule appends it or fails with its error |
| `SonDatabase.FindAfterRemoval` | services/database.go:179 | removing a row keeps every other row findable and the ids unique |
| `SonDatabase.RemovalShifts` | services/database.go:179 | removing a row shifts the later rows down by one |
| `SonDatabase.DeleteRemovesOnlyIt` | services/database.go:167-193 | the rule is gone with its actions; every other rule reads back as before |
| `SonHandling.Quota` | handlers/son_handlers.go:41-51 | between 1 and 100; an unknown level gets 1 |
| `SonHandling.QuotaOrdered` | handlers/son_handlers.go:41-51 | free 5 < premium 20 < business 100, each above an unknown level |
| `SonHandling.Claimed` | handlers/son_handlers.go:37-38 | the stored rule has the fresh id and the caller as owner, the body's other fields kept |
| `SonHandling.CreateKeepsQuota` | handlers/son_handlers.go:53-63 | creating below quota keeps the owner's count within quota |
| `SonHandling.CreateLeavesOthers` | handlers/son_handlers.go:65 | a create changes no other user's listing |
| `SonHandling.SonHandler.Create` | handlers/son_handlers.go:20-73 | 401 with no user; 400 on a bad body; 403 with storage untouched at quota; otherwise the claimed rule stored and 201, with a `son_created` activity row appended when that insert succeeds; a taken id answers 500 with rows and activity unchanged |
| `SonHandling.SonHandler.Get` | handlers/son_handlers.go:75-106 | 401 with no user; 404 iff no such rule; 403 for another user's rule; 200 only for the owner |
| `SonHandling.SonHandler.Update` | handlers/son_handlers.go:108-141 | id from the path, owner from the context; 404 without an (id, owner) match, rows and activity unchanged; otherwise only that row changes and a `son_updated` activity row is appended when that insert succeeds |
| `SonHandling.SonHandler.Delete` | handlers/son_handlers.go:143-167 | 404 without an (id, owner) match, rows and activity unchanged; otherwise only that row is removed and a `son_deleted` activity row is appended when that insert succeeds |
| `SonHandling.SonHandler.List` | handlers/son_handlers.go:169-189 | 401 with no user; otherwise only the caller's rules |
| `WebhookLogHandling.QueryInt` | handlers/webhook_log_handler.go:33-34 | the query value through Atoi, or the default when absent |
| `WebhookLogHandling.DefaultPaging` | handlers/webhook_log_handler.go:33-34 | limit defaults to 10 and offset to 0 |
| `WebhookLogHandling.GarbageIsZero` | handlers/webhook_log_handler.go:33-34 | a value that is not a number, and whose leading digits stay within 2^64-1, reads as 0 |
| `WebhookLogHandling.OverflowIsBound` | handlers/webhook_log_handler.go:33-34 | a value whose leading digits exceed 2^64-1 reads as MinInt64 after a minus sign and as MaxInt64 otherwise |
| `WebhookLogHandling.OverflowingLimitFails` | handlers/webhook_log_handler.go:33-40 | `limit=-99999999999999999999x` reads as MinInt64, so the handler answers 500 |
| `WebhookLogHandling.NextOffsetAsWritten` | handlers/webhook_log_handler.go:43-46 | the int64 sum, or −1 at or past the total; equal to offset+limit when no overflow |
| `WebhookLogHandling.NextOffset` | handlers/webhook_log_handler.go:43-46 | −1 when the page reaches the total, otherwise offset+limit below the total |
| `WebhookLogHandling.NextOffsetOverflows` | handlers/webhook_log_handler.go:43-46 | offset = MaxInt64, limit = 10 gives a negative next_offset other than −1 |
| `WebhookLogHandling.NextOffsetAgrees` | handlers/webhook_log_handler.go:43-46 | without overflow the two readings agree |
| `WebhookLogHandling.GetLogs` | handlers/webhook_log_handler.go:24-57 | 401 with no user; 500 iff limit or offset is negative; 200 echoes total, limit, offset and the page, with next_offset as written (the wrapping int64 sum) |
| `WebhookLogHandling.GetLogsWraps` | handlers/webhook_log_handler.go:43-46 | offset = MaxInt64 and limit = 10: the handler answers 200 with next_offset MinInt64 + 9 |
| `WebhookLogHandling.PagesTile` | handlers/webhook_log_handler.go:33-56 | non-negative limit and offset answer 200; a page holds min(limit, total − offset) logs; while offset + limit fits an int64, next_offset is the corrected value, a page announcing a next one is full and a last page ends at the total |
| `WebhookLogHandling.GetLogDetails` | handlers/webhook_log_handler.go:60-86 | 401 with no user; 404 iff the detail query fails (no such log, or no response stored yet); 200 only with the owner's own log |
| `WebhookLogHandling.DetailsOnlyForOwner` | handlers/webhook_log_handler.go:71-85 | with unique ids a completed log is 200 for its owner and 403 for everyone else; a log still without a response is 404 for everyone |
| `MagicLinks.Created` | services/magic_link_service.go:19-29 | a new token for the user expiring 15 min from now, other tokens kept |
| `MagicLinks.Verified` | services/magic_link_service.go:31-51 | unknown fails; expired fails and stays; otherwise the user, and the token is deleted |
| `MagicLinks.MagicLinkService.CreateToken` | services/magic_link_service.go:19-29 | the table becomes `Created` |
| `MagicLinks.MagicLinkService.VerifyToken` | services/magic_link_service.go:31-51 | the table becomes `Verified` |
| `MagicLinks.SingleUse` | services/magic_link_service.go:44-50 | a second verification of a used token fails |
| `MagicLinks.ValidForFifteenMinutes` | services/magic_link_service.go:19-42 | a fresh token works up to 15 min later and is expired after that |
| `MagicLinks.VerifyTouchesOnlyItsToken` | services/magic_link_service.go:44-47 | verification leaves every other token as it was |
| `Configuration.TrimSpace` | utils/config.go:168-169 | the result neither starts nor ends with white space |
| `Configuration.TrimSpaceOfPadded` | utils/config.go:168-169 | only the surrounding white space is removed |
| `Configuration.SplitLine` | utils/config.go:164-166 | no '=' means no split; otherwise key, '=', value, with no '=' in the key |
| `Configuration.ApplyLine` | utils/config.go:163-166 | a line without '=' changes nothing |
| `Configuration.OverrideFacts` | utils/config.go:53-105 | a field takes the variable's value iff it is set and non-empty |
| `Configuration.FirstMissing` | utils/config.go:107-149 | the first name in order whose field is empty, all earlier ones set |
| `Configuration.PortDefaulted` | utils/config.go:111-113 | the port becomes "8808" only when empty; other fields unchanged |
| `Configuration.LaterLineWins` | utils/config.go:168-206 | a later line for a known key overrides the earlier value |
| `Configuration.UnknownKeyIgnored` | utils/config.go:171-206 | a line whose key is not a field changes nothing |
| `Configuration.FileKeepsFields` | utils/config.go:171-206 | reading the file keeps exactly the sixteen fields |
| `Configuration.ValidatedComplete` | utils/config.go:107-151 | on success every required field and the port are non-empty |
| `Configuration.ValidatedByFirstMissing` | utils/config.go:107-149 | failure iff some required field is empty, naming the first |
| `Configuration.ValidatedNamesFirstMissing` | utils/config.go:107-149 | the reported field is empty and every earlier one is set |
| `Configuration.Validated` | utils/config.go:108-151 | on success the port is set, and every other field keeps the value it had |
| `Configuration.FirstMissingIgnores` | utils/config.go:107-149 | fields outside the list do not change the outcome |
| `Configuration.HostAndPortNotRequired` | utils/config.go:87-92 | DB_HOST and DB_PORT never change the outcome |
| `Configuration.EnvironmentSuffices` | utils/config.go:48-51 | without a readable file the environment alone can pass validation |
| `Configuration.AllSetPasses` | utils/config.go:107-151 | with every required field set validation passes |
| `Configuration.RequiredAreFields` | utils/config.go:12-36 | every required name is a field; PORT, DB_HOST and DB_PORT are not required |
| `Configuration.Config.LoadEnvFile` | utils/config.go:154-210 | the scanner loop applies each line in order |
| `Configuration.Config.SetField` | utils/config.go:171-206 | a field name sets that field; any other key is ignored |
| `Configuration.Config.ApplyEnv` | utils/config.go:53-105 | the sixteen overrides, in order |
| `Configuration.Config.OverrideEach` | utils/config.go:53-105 | one non-empty-override step per name |
| `Configuration.Config.FirstEmpty` | utils/config.go:114-149 | the check loop finds `FirstMissing` |
| `Configuration.Config.Validate` | utils/config.go:107-151 | the error names the first empty required field; the port defaults once LISTMONK_URL is set |
| `Configuration.LoadConfig` | utils/config.go:44-152 | fails iff validation of file then environment fails, with its error; otherwise the validated fields |

## Left out

- Concurrency and the job queue:
  - the goroutine per matched rule in `HandleWebhook` is left out; `HandleWebhook` returns the matched rules instead;
  - asynq's client, server, retries and queues are left out; enqueueing is a parameter that succeeds or fails.
- HTTP plumbing:
  - `ReplayWebhook` calls its own endpoint over HTTP and is left out;
  - `GetWebhookInfo` reads a registered webhook and holds no logic, so it is left out;
  - gin's context is reduced to an optional user, path values, a query map and a bound body.
- The Listmonk client, AWS SES, JWT handling and `html/template` rendering are parameters: their outcome is given, not computed.
- HMAC-SHA256, Go's `time.ParseDuration` and `Duration.String`, and RFC 3339 parsing and formatting are uninterpreted function parameters.
- Database failures other than the ones the code branches on are left out:
  - connection loss, and scan errors other than the NULL response_body of a webhook log still being processed;
  - `Begin`/`Commit` failures;
  - the 500 "Failed to check existing Sons" of `Create`;
  - the 500 branches of `Get`, `Update`, `Delete` and `List` for errors other than ErrSonNotFound;
  - the 500 "Failed to list Sons" of `HandleWebhook`.
  A duplicate primary key and MySQL's refusal of a negative LIMIT or OFFSET are modelled.
- Marshal and insert failures:
  - a failed `json.Marshal` of stored actions or headers is left out, because the encoded values here are always JSON;
  - in `ExecuteSon` the marshal outcome is a parameter.
- The Redis cache of `GetSonStats` and the `sync.Once` of `GetConfig` are left out (caching only).
- Statistics:
  - the per-rule COUNT and SUMs of `GetSonStats` are computed by the database; they are modelled by a function over the rule's runs;
  - the GROUP BY result is taken in rule-table order.
- Row order:
  - `ORDER BY timestamp DESC` and `ORDER BY executed_at ASC` are modelled as reverse and forward insertion order;
  - rows with equal timestamps, and clocks that run backwards, are not distinguished.
- ListedAfterCreate, `SonStore.SonStorage.List`: the SELECT of services/son_storage.go:143 has no ORDER BY, so MySQL promises no order; the model answers in insertion order, and "at the end" holds only for that order.
- Floating point:
  - `Duration.MarshalJSON` uses float64 minutes and `FormatDuration` uses `d.Hours()`; both are modelled with exact reals and integers;
  - JSON numbers are reals.
- Go's JSON decoding matches object keys case-insensitively; the model matches them exactly.
- `GetParsedDelay` is called by `ExecuteSon` but is not defined in models/son.go; its outcome is the `parsedDelay` parameter.
- models/son.go's `Son` struct has no owner or enabled field, although the storage and handlers use both; the model's `Son` has them.
- In `handleCreateCampaign` the panics on missing post data are modelled as a return without a log.
- Error texts that Go builds with `%v` details are modelled by their fixed prefix.
- The campaign name suffix (time plus random letters) is a parameter.
- In services/database.go the parameters text is represented by its JSON value, and the row id of an action is a counter.
- `.env.local` is taken as its lines:
  - bufio's line splitting is not modelled;
  - a read error mid-file keeps the lines read so far, which the `file` parameter then holds.
- `Configuration.TrimSpace`, `Numeric.ScanIntWord`: the model treats only ASCII white space as space; Go's `strings.TrimSpace` and `fmt`'s scanner also skip U+0085, U+00A0, U+1680, U+2000 to U+200A, U+2028, U+2029, U+202F, U+205F and U+3000.
- models/user.go's timestamps are not modelled.
- The handlers answer the rule as the request bound it; its timestamps are Go's zero time, which the model does not represent.
- `SonStore.SonStorage.Update`: models MySQL's matched-rows count, not the changed-rows count the driver reports (see Findings).
- `SonHandling.SonHandler.Update` inherits this: an unchanged re-save within one second answers 200 in the model where the code answers 404.
- `SonModel.ActionJson`: an action whose parameters map is nil (stored with `"parameters": null`) marshals as `null` in Go, and the task handlers then fail with "invalid parameters in action". The model does not tell a nil map from an empty one and always encodes an object.

The project's description of durations promises that day counts survive formatting. The code formats seven days or more as whole weeks, so "10d" comes back as "1w". The model follows the code (`DurationParser.DaysFoldIntoWeeks`).

## Findings

| source | as written | input that shows it | evidently intended | confidence | as-written member | corrected member |
|---|---|---|---|---|---|---|
| handlers/webhook_log_handler.go:43-46 | `offset + limit` is an int64 sum that can wrap | offset=9223372036854775807, limit=10: next_offset is −9223372036854775799, not −1 | −1 once the page reaches the end | not executed | `WebhookLogHandling.NextOffsetOverflows` | `WebhookLogHandling.NextOffset` |
| services/son_storage.go:99-107 | `RowsAffected() == 0` is read as "no such rule", but the MySQL driver counts changed rows | re-saving a rule unchanged within the same second of its last save: the row matches yet nothing changes, so ErrSonNotFound | ErrSonNotFound only when no row matches id and owner | not executed | `SonStore.UnchangedSaveReportsNotFound` | `SonStore.SonStorage.Update` |
