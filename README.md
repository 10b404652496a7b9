# zapflow core, modelled in Dafny

zapflow is a multi-tenant WhatsApp bulk-messaging backend. This project
models its five modules that hold logic, one Dafny module per source file,
and proves what each promises:

- **phoneFilter.js**: `normalizePhone`, `parseCSV`, `parseVCF` and `interpolate` (module `PhoneFilter`).
- **routes/campaigns.js**: the campaign routes (module `Campaigns`) and `buildSchedules` (module `Schedules`).
  - Create clamps the pacing delays, counts the recipients and expands the recurrence into occurrences.
  - Each occurrence gets a campaign row and a queue of recipients.
  - Start, pause, resume and cancel are the status transitions.
  - The routes also build the calendar by day of the month and the delivery report.
- **workers/campaignWorker.js**: the sending window `canSendNow`, the pacing pauses, the typing presence request, and the dispatch of one message (module `CampaignWorker`).
  - The `campaigns` job is a loop over the queued rows of one campaign. Its three early stops are a status poll, the sending window and the monthly quota.
  - The scheduler tick turns due campaigns into jobs.
- **routes/webhooks.js**: the gateway webhook (module `Webhooks`).
  - Connection events set the tenant's WhatsApp status.
  - Delivery receipts move rows and logs to delivered or read.
  - Inbound messages run the automation bot. The bot resumes a stored session or starts the first automation whose trigger fires. It walks the automation's nodes in `order_index` order until a `wait` or `menu` node.
- **routes/automations.js**: validation of a new automation, the request-node to node-row mapping, and PATCH (module `Automations`).
  - Menu options are stored as JSON text. Module `MenuOptions` holds that text's encoder and parser and proves the round trip.

Shared modules:

- `Wrappers`: `Option`, and JavaScript's `||` on strings.
- `Text`: `trim`, `split`/`join`, case-insensitive matching, `indexOf`.
- `Calendar`: local time as minutes since the epoch, with weekday, hour, minute and day of the month.
- `Ordering`: the stable numeric-comparator sort the bot uses.
- `Store`: the tables as a value `Db`, and a class `Store` whose fields are the tables.
  - Gateway requests, queued jobs and pauses are ghost logs in the store.
  - Every route and worker method is proved against a function on `Db`, as `ensures s.State() == Spec(old(s.State()), ...)`.
  - The properties are lemmas about those functions.

The clock, random draws, gateway answers, insert errors and writes made by
other requests are parameters: `now`, `Draw`, `Jitter`, `Env`, `inserts`,
`insertError`, `nodesStored`.

Two facts about the code that the model keeps:

- The bot's walk is a `for` loop over increasing node positions, so a cycle of `next_node_order` values cannot make one message loop. `Webhooks.WalkBounds` bounds the walk by the number of nodes.
- A quoted-printable vCard name that decodes to white space only (`=20`) is not empty, so the fallback to the phone does not apply. The final trim then makes it empty, and the contact is stored with an empty name. The model keeps that.

## Model

| member | source | states |
|---|---|---|
| PhoneFilter.DigitsOf | backend/src/lib/phoneFilter.js:7 | the digits of the input, in order; empty exactly when the input has no digit |
| PhoneFilter.DigitsOfConcat | backend/src/lib/phoneFilter.js:7 | filtering digits distributes over concatenation |
| PhoneFilter.DigitsOfDigits | backend/src/lib/phoneFilter.js:7 | a digit string is its own digit filter |
| PhoneFilter.StripCarrierPrefix | backend/src/lib/phoneFilter.js:11 | a number longer than 11 digits starting with 0 loses its first three digits; any other is unchanged |
| PhoneFilter.NormalizePhone | backend/src/lib/phoneFilter.js:6-34 | no digits gives null; every result is non-empty digits; a "55" result has 12 or 13 digits, a "598" result 11 or 12 |
| PhoneFilter.BrazilCountryCodeAdded | backend/src/lib/phoneFilter.js:21-28 | a 10- or 11-digit number without 55 or 598 gets "55" in front (and then loses the ninth digit for area codes up to 28) |
| PhoneFilter.CountryCodePrefixed | backend/src/lib/phoneFilter.js:21-28 | the Brazilian rewrite of such a number starts with "55" and has 12 or 13 digits |
| PhoneFilter.NinthDigitRemoved | backend/src/lib/phoneFilter.js:25-28 | a 13-digit "55" number loses its fifth character when its area code is at most 28 and is kept otherwise |
| PhoneFilter.UruguayKept | backend/src/lib/phoneFilter.js:13-14 | a "598" number is kept as it is when it has 11 or 12 digits and rejected otherwise |
| PhoneFilter.UruguayMobileWithZero | backend/src/lib/phoneFilter.js:15-16 | a 9-digit "09" number becomes "598" followed by the digits after the 0 |
| PhoneFilter.UruguayMobile | backend/src/lib/phoneFilter.js:17-18 | an 8-digit "9" number becomes "598" followed by the number |
| PhoneFilter.CarrierPrefixRemoved | backend/src/lib/phoneFilter.js:11 | a number longer than 11 digits starting with 0 normalises as its digits after the first three |
| PhoneFilter.NormalizeIdempotent | backend/src/lib/phoneFilter.js:6-34 | normalising an accepted number again gives it back (except a result still carrying a carrier prefix) |
| PhoneFilter.BrazilRewriteStable | backend/src/lib/phoneFilter.js:21-28 | an accepted Brazilian rewrite is a fixed point of the country rewrite |
| PhoneFilter.SplitLines | backend/src/lib/phoneFilter.js:41 | at least one line, none containing a line feed |
| PhoneFilter.SplitLinesJoin | backend/src/lib/phoneFilter.js:41 | joining the lines with a line feed gives the text back with every CR LF made a LF |
| PhoneFilter.SplitLinesIsSplit | backend/src/lib/phoneFilter.js:41 | the lines are exactly the pieces of the CR LF-collapsed text between line feeds |
| PhoneFilter.StripQuotes | backend/src/lib/phoneFilter.js:44 | one surrounding pair of double quotes is removed; unquoted text is unchanged |
| PhoneFilter.PhoneAsName | backend/src/lib/phoneFilter.js:48 | the fallback name is the emoji and a space followed by the phone |
| PhoneFilter.CsvFields | backend/src/lib/phoneFilter.js:43-44 | the fields are the pieces split on ';' when the line has one, else on ',', each trimmed and unquoted |
| PhoneFilter.ParseCsvLine | backend/src/lib/phoneFilter.js:42-48 | a line gives a contact exactly when it is not blank, has two fields and its second field normalises; the name is the first field or the phone fallback |
| PhoneFilter.ParseCsvLines | backend/src/lib/phoneFilter.js:41-50 | at most one contact per line, each with a non-empty name and an accepted phone |
| PhoneFilter.ParseCsv | backend/src/lib/phoneFilter.js:36-51 | every contact of a CSV text has a non-empty name and an accepted phone |
| PhoneFilter.ParseCsvLinesConcat | backend/src/lib/phoneFilter.js:41-50 | the fold keeps line order: two blocks of lines give their contacts in turn |
| PhoneFilter.UnfoldSoftBreaks | backend/src/lib/phoneFilter.js:58 | removing soft line breaks never lengthens the text and leaves text without '=' unchanged (the lemmas below cover lines holding `=XX` escapes) |
| PhoneFilter.UnfoldStep | backend/src/lib/phoneFilter.js:58 | one step of the left-to-right scan: an '=' LF or '=' CR LF at the front is dropped, and any other first character, an escape's '=' included, is kept |
| PhoneFilter.UnfoldPlain | backend/src/lib/phoneFilter.js:58 | text without a line feed, followed by nothing or by an '=', passes through unchanged whatever escapes it holds |
| PhoneFilter.UnfoldBreak | backend/src/lib/phoneFilter.js:58 | a soft break ('=' then LF, or '=' then CR LF) after text without a line feed is removed |
| PhoneFilter.UnfoldLines | backend/src/lib/phoneFilter.js:58 | lines without a line feed of their own (they may hold `=XX` escapes) joined by soft breaks unfold to the lines joined by nothing |
| PhoneFilter.SplitOnCI | backend/src/lib/phoneFilter.js:61 | splitting on BEGIN:VCARD gives at least one piece, none longer than the text |
| PhoneFilter.SplitOnCIPieces | backend/src/lib/phoneFilter.js:61 | the first piece is the text up to the first occurrence, and no piece contains the separator in any case |
| PhoneFilter.SplitOnCIJoin | backend/src/lib/phoneFilter.js:61 | joining the pieces with the separator gives the text back, up to the case of the matched separators |
| PhoneFilter.LineEnd | backend/src/lib/phoneFilter.js:64 | the first line terminator at or after a position, or the end |
| PhoneFilter.FindTel | backend/src/lib/phoneFilter.js:64 | the value of the first TEL line from the position (the rest of its line after the first ':', non-empty), or none exactly when no line matches |
| PhoneFilter.FindProperty | backend/src/lib/phoneFilter.js:69-70 | the tag and value of the first line starting with the property name and holding a ':', or none exactly when no line matches |
| PhoneFilter.DecodeQuotedPrintable | backend/src/lib/phoneFilter.js:78-84 | decoding never lengthens the name and leaves a name without '=' unchanged |
| PhoneFilter.DecodeEscape | backend/src/lib/phoneFilter.js:81 | an '=' followed by two hex digits becomes the character with that code, and decoding goes on after them |
| PhoneFilter.DecodeLiteral | backend/src/lib/phoneFilter.js:81 | a character other than '=' is kept and decoding goes on after it |
| PhoneFilter.DecodeStray | backend/src/lib/phoneFilter.js:81 | an '=' not followed by two hex digits is kept and decoding goes on after it |
| PhoneFilter.DecodeEncode | backend/src/lib/phoneFilter.js:78-84 | decoding inverts escaping every character below 256 as '=' and two hex digits |
| PhoneFilter.SemicolonsToSpaces | backend/src/lib/phoneFilter.js:75 | every ';' becomes a space and every other character stays |
| PhoneFilter.UsableName | backend/src/lib/phoneFilter.js:86 | a non-empty name without VERSION is kept; the result never mentions VERSION |
| PhoneFilter.CardName | backend/src/lib/phoneFilter.js:69-87 | a card's name never mentions VERSION |
| PhoneFilter.ParseVcfCard | backend/src/lib/phoneFilter.js:61-87 | a card gives a contact exactly when it has END:VCARD and its first TEL value normalises; phone and name are those |
| PhoneFilter.ParseVcfCards | backend/src/lib/phoneFilter.js:61-89 | at most one contact per card, each with an accepted phone and a name without VERSION |
| PhoneFilter.ParseVcf | backend/src/lib/phoneFilter.js:53-90 | every contact of a vCard file has an accepted phone and a name without VERSION |
| PhoneFilter.ParseVcfCardsConcat | backend/src/lib/phoneFilter.js:61-88 | the card loop keeps card order |
| PhoneFilter.FormattedNamePreferred | backend/src/lib/phoneFilter.js:69-75 | a usable plain FN value names the card, whatever the N line says |
| PhoneFilter.NameLineFallback | backend/src/lib/phoneFilter.js:70-75 | without FN, a usable plain N value names the card |
| PhoneFilter.UnnamedCardUsesPhone | backend/src/lib/phoneFilter.js:86-87 | a card with an empty name is named after its phone |
| PhoneFilter.WordPrefix | backend/src/lib/phoneFilter.js:95 | the longest prefix of word characters |
| PhoneFilter.Lookup | backend/src/lib/phoneFilter.js:94 | a variable of the contact wins; else `nome` is the name or "cliente", `telefone` the phone; other keys have no value |
| PhoneFilter.PlaceholderAt | backend/src/lib/phoneFilter.js:95 | a placeholder's key is non-empty and fits in the text with its braces |
| PhoneFilter.Interpolate | backend/src/lib/phoneFilter.js:93 | an empty template gives the empty string |
| PhoneFilter.TextWithoutBracesKept | backend/src/lib/phoneFilter.js:95 | text without '{' passes through unchanged in front of the rest |
| PhoneFilter.InterpolatePlainText | backend/src/lib/phoneFilter.js:92-96 | a template without '{' is returned as it is |
| PhoneFilter.BraceKept | backend/src/lib/phoneFilter.js:95 | a '{' that starts no placeholder is kept and substitution goes on after it |
| PhoneFilter.TextWithoutClosingBraceKept | backend/src/lib/phoneFilter.js:95 | a template without '}' is returned as it is, whatever '{' it holds |
| PhoneFilter.PlaceholderReplaced | backend/src/lib/phoneFilter.js:94-95 | `{key}` becomes the looked-up value, or stays verbatim for an unknown key; the rest is interpolated in turn |
| PhoneFilter.WordPrefixOfWord | backend/src/lib/phoneFilter.js:95 | the word prefix of a word followed by a non-word character is that word |
| Text.Trim | backend/src/lib/phoneFilter.js:44 | `trim` gives the slice of the input left after removing the white space at its two ends: no white space at either end of the result, only white space outside it |
| Text.TrimUnique | backend/src/lib/phoneFilter.js:44 | any slice with only white space outside it and none at its ends is the trimmed text, so `trim` removes exactly the leading and trailing white space |
| Text.Split | backend/src/lib/phoneFilter.js:43 | `split` gives at least one piece, none containing the separator |
| Text.SplitJoin | backend/src/routes/webhooks.js:217 | joining the pieces of a split gives the text back |
| Text.JoinSplit | backend/src/routes/webhooks.js:217 | splitting pieces joined by a separator they lack gives the pieces back |
| Text.IndexOf | backend/src/routes/webhooks.js:58 | the first occurrence of a pattern at or after a position, or none |
| Text.RemoveFirst | backend/src/routes/webhooks.js:58 | `replace` with a string pattern: the text is the result with the pattern put back at the first occurrence, and is unchanged when there is none |
| Text.LowerAll | backend/src/routes/webhooks.js:140 | `toLowerCase` maps every character (ASCII letters lowered) |
| Text.TrimKeepsAbsence | backend/src/lib/phoneFilter.js:86 | trimming cannot create an occurrence of a pattern |
| Wrappers.OrString | backend/src/routes/automations.js:90 | JavaScript's or-default on a string: the value when truthy, the default otherwise |
| Wrappers.OrNull | backend/src/routes/automations.js:91 | the or-null default: null exactly for a missing or empty string, else the string |
| Calendar.MinuteOfDay | backend/src/workers/campaignWorker.js:38 | minutes since local midnight, which rebuild the time from the midnight |
| Calendar.Hour | backend/src/workers/campaignWorker.js:38 | `getHours` lies in 0..23 |
| Calendar.Minute | backend/src/workers/campaignWorker.js:47 | `getMinutes` lies in 0..59 and with the hour gives the minute of the day |
| Calendar.Weekday | backend/src/workers/campaignWorker.js:39 | `getDay` lies in 0..6 |
| Calendar.NextWeekday | backend/src/routes/campaigns.js:295 | the weekday advances by one each day, round the week |
| Calendar.DayOfMonth | backend/src/routes/campaigns.js:53 | `getDate` lies in 1..31 |
| Store.ContactById | backend/src/workers/campaignWorker.js:129 | the joined contact has the row's contact id, or no contact has that id |
| Ordering.Insert | backend/src/routes/webhooks.js:151-152 | inserting into a sorted array keeps it sorted and adds exactly the element |
| Ordering.SortBy | backend/src/routes/webhooks.js:151-152 | the sorted array is ordered by the key and is a permutation of the input |
| Ordering.SortKeepsMembers | backend/src/routes/webhooks.js:151-152 | the sorted array has the same members |
| Ordering.SortStable | backend/src/routes/webhooks.js:151-152 | elements with equal keys keep their input order |
| Ordering.SortSorted | backend/src/routes/webhooks.js:224-225 | sorting an already sorted array changes nothing |
| Ordering.SortIdempotent | backend/src/routes/webhooks.js:224-225 | sorting the nodes a second time changes nothing |
| Text.HexDigitChar | backend/src/routes/automations.js:95 | the hex digit written for a value reads back as that value |
| MenuOptions.NatToDigits | backend/src/routes/automations.js:95 | a number is written as a non-empty digit string |
| MenuOptions.Encode | backend/src/routes/automations.js:95 | `JSON.stringify` of the options is an array text |
| MenuOptions.DigitRun | backend/src/routes/webhooks.js:123 | the longest digit prefix, followed by a non-digit or the end |
| MenuOptions.DecodeEncode | backend/src/routes/webhooks.js:123 | `JSON.parse(JSON.stringify(options))` gives the options back |
| MenuOptions.StringRoundTrip | backend/src/routes/webhooks.js:123 | an encoded string reads back, leaving the text after it |
| MenuOptions.IntRoundTrip | backend/src/routes/webhooks.js:123 | an encoded integer followed by a non-digit reads back |
| MenuOptions.OptionRoundTrip | backend/src/routes/webhooks.js:123 | an encoded option reads back |
| MenuOptions.ElementsRoundTrip | backend/src/routes/webhooks.js:123 | encoded array elements read back, up to the closing bracket |
| MenuOptions.DigitsValueOfNat | backend/src/routes/webhooks.js:123 | the digits written for a number are worth that number |
| Automations.NodeRows | backend/src/routes/automations.js:86-97 | one row per request node, in request order, each the node's own row |
| Automations.CreateAutomation | backend/src/routes/automations.js:65-101 | 400 exactly when name, trigger or nodes are missing; 500 exactly on an insert error; otherwise the automation, with exactly the rows `NodeRows` builds from the nodes (one owned row per node) when the unchecked node insert stores them, and none when it does not |
| Automations.CreatedDefaults | backend/src/routes/automations.js:78-79 | active unless sent `false`; keywords default to none |
| Automations.RowOrder | backend/src/routes/automations.js:89 | `order_index` is the node's `order`, else its position |
| Automations.RowsDenselyOrdered | backend/src/routes/automations.js:89 | without `order`, rows are numbered 0, 1, 2, ... |
| Automations.RowDefaults | backend/src/routes/automations.js:90-96 | type message, media type none, wait 0, null for missing texts, options null exactly when missing |
| Automations.StoredOptionsRoundTrip | backend/src/routes/automations.js:95 | the stored options text parses back, as the bot parses it, to the options sent |
| Automations.RowsOptionsParse | backend/src/routes/automations.js:86-97 | every stored options text parses |
| Automations.PatchAutomation | backend/src/routes/automations.js:105-113 | another tenant's row is untouched; the own row takes the given name and active flag and a new `updated_at` |
| Automations.PatchKeepsTrigger | backend/src/routes/automations.js:106-110 | PATCH never changes id, owner, trigger, keywords or creation time |
| Schedules.DayOccurrences | backend/src/routes/campaigns.js:288-293 | one timestamp per time, in list order, each that time past the day's midnight |
| Schedules.Somes | backend/src/routes/campaigns.js:292 | every occurrence becomes a non-null date, in order |
| Schedules.TimesOrDefault | backend/src/routes/campaigns.js:270 | the times used are never empty |
| Schedules.ScheduledDates | backend/src/routes/campaigns.js:262-299 | the result is never empty; a recurrence with no qualifying day up to the end date falls back to the base date alone; a recurrence gives dates only |
| Schedules.OccurrencesStep | backend/src/routes/campaigns.js:279-296 | the walk is the current day's occurrences (if it qualifies) followed by the walk from the next day |
| Schedules.PushDay | backend/src/routes/campaigns.js:288-293 | the inner loop appends the day's occurrences in times order |
| Schedules.BuildSchedules | backend/src/routes/campaigns.js:262-299 | the method's result is the schedule function's |
| Schedules.WalkDays | backend/src/routes/campaigns.js:276-296 | the cursor loop yields the occurrences of the qualifying days from the start day through the end date |
| Schedules.NoRecurrence | backend/src/routes/campaigns.js:264-267 | type none gives `[null]` without a date and exactly the date with one |
| Schedules.QualifyingDaysMembers | backend/src/routes/campaigns.js:279-285 | a day is walked exactly when it lies from the start day through the end date and qualifies |
| Schedules.QualifyingDaysAscending | backend/src/routes/campaigns.js:276-296 | the qualifying days come in strictly increasing order |
| Schedules.DailyDays | backend/src/routes/campaigns.js:283 | a daily recurrence qualifies every day from the start through the end day |
| Schedules.UnknownKindNoDays | backend/src/routes/campaigns.js:282-285 | an unknown type such as 'once' qualifies no day |
| Schedules.UnknownKindSingle | backend/src/routes/campaigns.js:298 | an unknown type gives one timestamp at the start time |
| Schedules.OccurrencesLength | backend/src/routes/campaigns.js:279-296 | days × times occurrences |
| Schedules.OccurrencesAt | backend/src/routes/campaigns.js:279-296 | occurrence number j × (number of times) + k is time k of day j |
| Schedules.RecurringShape | backend/src/routes/campaigns.js:270-296 | (number of qualifying days) × (number of times) dates; date j × (number of times) + k is time k of qualifying day j |
| Schedules.StartDayFirst | backend/src/routes/campaigns.js:276-277 | a qualifying start day comes first, even its times before the base time |
| Campaigns.ClampDelays | backend/src/routes/campaigns.js:86-87 | the minimum is the larger of the requested and the plan minimum (10 by default); the maximum is the larger of the requested (30) and minimum + 5 |
| Campaigns.DelaySpread | backend/src/routes/campaigns.js:86-87 | the maximum delay exceeds the minimum by at least five seconds |
| Campaigns.Validate | backend/src/routes/campaigns.js:79-83 | accepted exactly with a name, a text or media, and a caption for media |
| Campaigns.TargetContacts | backend/src/routes/campaigns.js:90-102 | the recipients are exactly the tenant's active, not opted-out contacts sharing a tag when tags are given |
| Campaigns.TargetsAreReachable | backend/src/routes/campaigns.js:90-95 | every recipient is the tenant's, active and not opted out |
| Campaigns.QueuedRows | backend/src/routes/campaigns.js:155-160 | one queued row per recipient, in recipient order |
| Campaigns.InsertStep | backend/src/routes/campaigns.js:145-163 | a stored campaign insert adds the campaign, then its queue when the queue insert stores it, and goes on |
| Campaigns.CreateSpec | backend/src/routes/campaigns.js:74-169 | a refused request leaves the store unchanged |
| Campaigns.Insert | backend/src/routes/campaigns.js:146-161 | the campaign row is added with the next id, then its queue when the queue insert stores it |
| Campaigns.Create | backend/src/routes/campaigns.js:74-169 | the handler's store and reply are those of the create function |
| Campaigns.InsertAll | backend/src/routes/campaigns.js:145-163 | the loop's store and created list are those of the insert function |
| Campaigns.InsertedCampaigns | backend/src/routes/campaigns.js:145-163 | each inserted campaign is an occurrence of the base, with fresh ascending ids; no other table changes |
| Campaigns.InsertedStored | backend/src/routes/campaigns.js:145-163 | with fresh ids, every stored campaign is kept as it was, every reported campaign is stored under its id, and the ids stay fresh |
| Campaigns.AllInserted | backend/src/routes/campaigns.js:145-163 | when no campaign insert is refused every occurrence becomes a campaign, in order |
| Campaigns.InsertedQueues | backend/src/routes/campaigns.js:154-161 | when no queue insert fails, the queue gains one row per recipient for each inserted campaign, in order |
| Campaigns.QueueGrowth | backend/src/routes/campaigns.js:154-161 | whatever the queue inserts answer, old rows are kept and every new row is a queued row of a campaign the loop inserted |
| Campaigns.CreatedCampaignShape | backend/src/routes/campaigns.js:117-148 | scheduled exactly with a date, draft otherwise; total and pending are the recipient count; delays clamped; the date is one of the occurrences |
| Campaigns.CreatedQueues | backend/src/routes/campaigns.js:145-163 | when no queue insert fails, each created campaign gets exactly one queued row per recipient and nothing else is queued; otherwise the queue still only gains queued rows of created campaigns |
| Campaigns.UnscheduledIsOneDraft | backend/src/routes/campaigns.js:142-148 | no date and no recurrence give one draft campaign |
| Campaigns.CreateRefusals | backend/src/routes/campaigns.js:79-102 | refused with 400 exactly on a failed guard or when no contact is targeted |
| Campaigns.FindCampaign | backend/src/routes/campaigns.js:179-183 | the campaign is found exactly when it exists and is the tenant's |
| Campaigns.StartSpec | backend/src/routes/campaigns.js:172-194 | accepted exactly when connected, found and draft, paused or scheduled; then running with a priority job; else nothing changes |
| Campaigns.PauseSpec | backend/src/routes/campaigns.js:197-202 | the tenant's campaign becomes paused whatever its status |
| Campaigns.ResumeSpec | backend/src/routes/campaigns.js:205-221 | accepted exactly for the tenant's paused campaign, which becomes running with a job; else 400 and nothing changes |
| Campaigns.CancelSpec | backend/src/routes/campaigns.js:224-229 | the tenant's campaign becomes cancelled whatever its status |
| Campaigns.Start | backend/src/routes/campaigns.js:172-194 | the handler does what the start function says |
| Campaigns.Pause | backend/src/routes/campaigns.js:197-202 | the handler does what the pause function says |
| Campaigns.Resume | backend/src/routes/campaigns.js:205-221 | the handler does what the resume function says |
| Campaigns.Cancel | backend/src/routes/campaigns.js:224-229 | the handler does what the cancel function says |
| Campaigns.PauseOverridesDone | backend/src/routes/campaigns.js:197-229 | even a done campaign can be paused or cancelled |
| Campaigns.TerminalStatusesStay | backend/src/routes/campaigns.js:184-185 | a cancelled or done campaign can be neither started nor resumed |
| Campaigns.CalendarDay | backend/src/routes/campaigns.js:53 | the bucket day lies in 1..31 |
| Campaigns.OnDay | backend/src/routes/campaigns.js:52-56 | the campaigns of one day, in query order |
| Campaigns.GroupByDay | backend/src/routes/campaigns.js:51-56 | the grouping loop builds the calendar function's map |
| Campaigns.GroupedDays | backend/src/routes/campaigns.js:51-56 | the calendar has a day exactly when some campaign falls on it |
| Campaigns.OnDayEmpty | backend/src/routes/campaigns.js:52-56 | no campaign on a day lists nothing for it |
| Campaigns.GroupedIsOnDay | backend/src/routes/campaigns.js:51-56 | each day lists exactly its campaigns, in query order |
| Campaigns.OneBucketEach | backend/src/routes/campaigns.js:51-56 | each campaign is listed on its own day and on no other |
| Campaigns.OnDayKeepsOrder | backend/src/routes/campaigns.js:48-56 | ascending `scheduled_at` order is kept within each day |
| Campaigns.CountStatus | backend/src/routes/campaigns.js:243-245 | a count is the number of logs with that status |
| Campaigns.LogsOf | backend/src/routes/campaigns.js:238-241 | a log is kept exactly when it belongs to the campaign |
| Campaigns.LogsOfMultiset | backend/src/routes/campaigns.js:238-241 | each log of the campaign is kept as often as it occurs, and no other |
| Campaigns.LogsOfAppend | backend/src/routes/campaigns.js:238-241 | the kept logs are in log order |
| Campaigns.CountOfCampaign | backend/src/routes/campaigns.js:238-245 | a status count over the campaign's logs is the number of its log entries with that status |
| Campaigns.ReportSpec | backend/src/routes/campaigns.js:232-258 | 404 exactly when the campaign is not the tenant's; total and pending come from the campaign; sent, delivered, read and failed are the numbers of its log entries with those statuses |
| Campaigns.CountsPartition | backend/src/routes/campaigns.js:243-255 | the four counts add up to the logs when every status is one of the four |
| CampaignWorker.AllowedIff | backend/src/workers/campaignWorker.js:36-55 | sending is allowed exactly on permitted days within [start, end) |
| CampaignWorker.WeekendWaitEndsOnMonday | backend/src/workers/campaignWorker.js:41-45 | the weekend wait is whole days and ends on a Monday at the same time of day |
| CampaignWorker.BeforeHoursWait | backend/src/workers/campaignWorker.js:46-49 | before the window the wait ends at start:00 the same day |
| CampaignWorker.AfterHoursWait | backend/src/workers/campaignWorker.js:50-53 | after the window the wait ends at start:00 the next day |
| CampaignWorker.WaitsPositive | backend/src/workers/campaignWorker.js:36-55 | every block asks for a positive wait |
| CampaignWorker.HumanDelayBounds | backend/src/workers/campaignWorker.js:29-34 | the pause is at least min seconds and under max seconds plus half a second |
| CampaignWorker.SpreadBound | backend/src/workers/campaignWorker.js:30 | the random spread stays within its range |
| CampaignWorker.TypingMsBounds | backend/src/workers/campaignWorker.js:59-60 | the typing delay lies in [1000, 7000] ms, floor and ceiling as the character count says |
| CampaignWorker.MediaDispatch | backend/src/workers/campaignWorker.js:71-87 | image, video and document go out as one media request captioned by the caption or else the text |
| CampaignWorker.TextDispatch | backend/src/workers/campaignWorker.js:89-95 | any other type goes out as text, after a 1–7 s presence request exactly when typing is simulated |
| CampaignWorker.Pending | backend/src/workers/campaignWorker.js:127-132 | the fetched rows are exactly the campaign's queued rows, ascending |
| CampaignWorker.Joined | backend/src/workers/campaignWorker.js:129 | one joined contact per fetched row |
| CampaignWorker.Record | backend/src/workers/campaignWorker.js:190-226 | recording an answer goes on and keeps the job context well formed |
| CampaignWorker.Step | backend/src/workers/campaignWorker.js:147-243 | a turn keeps the job context well formed |
| CampaignWorker.Checked | backend/src/workers/campaignWorker.js:159-243 | the rest of a turn keeps the job context well formed |
| CampaignWorker.Dispatch | backend/src/workers/campaignWorker.js:188-191 | marking the row and sending keeps the job context well formed |
| CampaignWorker.Deliver | backend/src/workers/campaignWorker.js:187-242 | a send always goes on |
| CampaignWorker.Drain | backend/src/workers/campaignWorker.js:147-243 | the loop keeps the job context well formed |
| CampaignWorker.StepCases | backend/src/workers/campaignWorker.js:152-191 | a turn halts on a paused or cancelled poll, else reschedules outside the window, else skips an unusable contact, else stops at the quota, else sends |
| CampaignWorker.PollFacts | backend/src/workers/campaignWorker.js:152-154 | the poll reads the status another request wrote and changes nothing else |
| CampaignWorker.DeliverFacts | backend/src/workers/campaignWorker.js:187-242 | a send makes the requests, counts one answer, updates only its row, and pauses exactly when its contact is not the last |
| CampaignWorker.RecordRows | backend/src/workers/campaignWorker.js:190-226 | an answer changes only its row, which ends sent or failed with one more attempt and one log entry |
| CampaignWorker.StepRows | backend/src/workers/campaignWorker.js:147-243 | a turn touches only its own row, which ends sent or failed when the loop goes on; a stop changes no row |
| CampaignWorker.StepStatus | backend/src/workers/campaignWorker.js:152-185 | a poll stop keeps the polled status; the other stops write paused; only a window stop enqueues a job |
| CampaignWorker.StepWindow | backend/src/workers/campaignWorker.js:160-166 | the window is checked with the campaign's settings; a blocked window re-enqueues with its wait |
| CampaignWorker.StepQuota | backend/src/workers/campaignWorker.js:178-185 | the quota stop needs a positive multiple of 50 and usage at the limit |
| CampaignWorker.StepPacing | backend/src/workers/campaignWorker.js:236-242 | a turn pauses exactly once when it goes on past a sent, non-last contact, never otherwise, and for at least the minimum delay |
| CampaignWorker.StepSkipsInactive | backend/src/workers/campaignWorker.js:169-175 | an unusable contact is marked failed with no request, log, pause, usage count or progress write |
| CampaignWorker.StepSends | backend/src/workers/campaignWorker.js:187-226 | a sent-to contact gets the dispatch requests, one log entry and a row recording the answer |
| CampaignWorker.TurnNext | backend/src/workers/campaignWorker.js:147-243 | one turn, then the rest of the loop |
| CampaignWorker.DrainNext | backend/src/workers/campaignWorker.js:147-243 | the loop unfolds by one turn |
| CampaignWorker.TurnStep | backend/src/workers/campaignWorker.js:147-243 | a turn's result with everything the turn lemmas say about it |
| CampaignWorker.DrainCounts | backend/src/workers/campaignWorker.js:145-243 | the loop gets through a prefix, counting each contact once, and completes exactly when the prefix is all |
| CampaignWorker.AscendingDistinct | backend/src/workers/campaignWorker.js:147-149 | distinct turns visit distinct rows |
| CampaignWorker.ProgressedStep | backend/src/workers/campaignWorker.js:147-243 | a turn's row change composes with the rest of the loop's |
| CampaignWorker.DrainRows | backend/src/workers/campaignWorker.js:147-243 | each contact got through ends sent or failed; every other row is unchanged |
| CampaignWorker.ProgressedNone | backend/src/workers/campaignWorker.js:147 | no turn, no change |
| CampaignWorker.DrainJobs | backend/src/workers/campaignWorker.js:164 | the loop enqueues only the window re-enqueue, with its wait |
| CampaignWorker.PausesAtLeastTrans | backend/src/workers/campaignWorker.js:236-242 | long-enough pauses compose |
| CampaignWorker.DrainPacing | backend/src/workers/campaignWorker.js:236-242 | every pacing pause lasts at least the minimum delay, and the loop pauses once per contact sent to, except the last fetched one |
| CampaignWorker.DrainStopStatus | backend/src/workers/campaignWorker.js:152-185 | a window or quota stop leaves the campaign paused; a poll stop leaves it paused or cancelled |
| CampaignWorker.DrainNeverDone | backend/src/workers/campaignWorker.js:147-243 | the loop never marks the campaign done |
| CampaignWorker.RunRefusals | backend/src/workers/campaignWorker.js:106-122 | a missing campaign or tenant, a suspension or a disconnection fails the job; only the suspension writes, pausing the campaign |
| CampaignWorker.FetchedRows | backend/src/workers/campaignWorker.js:127-132 | exactly the campaign's queued rows are fetched, in table order |
| CampaignWorker.RunNeverResends | backend/src/workers/campaignWorker.js:127-252 | a run never touches a row that is not queued for its campaign, so no contact is sent to twice |
| CampaignWorker.ProgressedKeeps | backend/src/workers/campaignWorker.js:127-243 | progress over the fetched rows keeps every other row |
| CampaignWorker.RunDone | backend/src/workers/campaignWorker.js:134-139 | done exactly when every fetched contact was sent or failed, and then the counters are the job's tallies |
| CampaignWorker.RunJobs | backend/src/workers/campaignWorker.js:164 | a run adds at most one job: same campaign and tenant, no priority, campaign paused |
| CampaignWorker.RunPacing | backend/src/workers/campaignWorker.js:236-242 | every pacing pause of a run lasts at least the minimum delay; a run pauses once per contact sent to except the last fetched one, and not at all when it stops before the loop |
| CampaignWorker.RecordAnswer | backend/src/workers/campaignWorker.js:190-226 | the store after an answer is the record function's |
| CampaignWorker.DeliverTo | backend/src/workers/campaignWorker.js:187-242 | the store after a send is the deliver function's |
| CampaignWorker.DispatchTo | backend/src/workers/campaignWorker.js:188-191 | the row is marked sending, then the requests are made |
| CampaignWorker.WriteProgress | backend/src/workers/campaignWorker.js:229-233 | the progress write stores the job's tallies and the contacts left |
| CampaignWorker.ProcessContact | backend/src/workers/campaignWorker.js:147-243 | one turn on the store is the turn function, `break` being a stop |
| CampaignWorker.CheckContact | backend/src/workers/campaignWorker.js:159-243 | the rest of a turn on the store is the checked function |
| CampaignWorker.RunJob | backend/src/workers/campaignWorker.js:101-256 | the job handler's store and outcome are the run function's |
| CampaignWorker.Enqueue | backend/src/workers/campaignWorker.js:276 | a job joins the queue and nothing else changes |
| CampaignWorker.SchedulerTick | backend/src/workers/campaignWorker.js:264-279 | one run job per due campaign, once each, and nothing else changes, statuses included |
| Webhooks.ConnectionStatus | backend/src/routes/webhooks.js:17-19 | connected exactly when the state is open, else disconnected |
| Webhooks.ConnectionUpdate | backend/src/routes/webhooks.js:16-28 | the same tenants remain |
| Webhooks.ConnectedIffOpen | backend/src/routes/webhooks.js:16-28 | the instance's tenants are connected exactly when the state is open; nothing else changes |
| Webhooks.LastConnectionEventWins | backend/src/routes/webhooks.js:16-28 | of two connection events, only the last one matters |
| Webhooks.AckStatus | backend/src/routes/webhooks.js:34-38 | DELIVERY_ACK is delivered, READ and PLAYED are read, nothing else maps |
| Webhooks.MarkRows | backend/src/routes/webhooks.js:41-43 | only the status changes, only on rows carrying the message id, and those rows end at the new status |
| Webhooks.MarkLogs | backend/src/routes/webhooks.js:45-47 | only the status changes, only on logs carrying the message id, and those logs end at the new status |
| Webhooks.AckMarks | backend/src/routes/webhooks.js:40-48 | a known status with an id moves exactly the rows and logs with that id; any other receipt changes nothing |
| Webhooks.ReceiptsTouchOnlySentRows | backend/src/routes/webhooks.js:32-50 | receipts change only the status of rows that carry a message id, and no other table |
| Webhooks.LastReceiptWins | backend/src/routes/webhooks.js:33-48 | a READ followed by a DELIVERY_ACK leaves the row delivered |
| Webhooks.HandleReceipts | backend/src/routes/webhooks.js:33-49 | the receipts loop on the store is the receipts function |
| Webhooks.Sender | backend/src/routes/webhooks.js:56-67 | a message reaches the bot exactly when it is not our own, has a sender jid that is non-empty and does not end in `@g.us` once the first `@s.whatsapp.net` is removed (so `status@broadcast` also passes), and has non-empty trimmed text |
| Webhooks.PersonAnswered | backend/src/routes/webhooks.js:58-67 | a person `p@s.whatsapp.net` is answered on number `p` |
| Webhooks.GroupIgnored | backend/src/routes/webhooks.js:59 | a group sender never reaches the bot |
| Webhooks.RemoveSuffix | backend/src/routes/webhooks.js:58 | removing the person suffix gives the number back |
| Webhooks.Owned | backend/src/routes/webhooks.js:102-106 | exactly the tenant's active automations |
| Webhooks.NodesOf | backend/src/routes/webhooks.js:104 | exactly the automation's nodes |
| Webhooks.ActiveFlows | backend/src/routes/webhooks.js:101-107 | the tenant's active automations with their nodes, in `created_at` order, all of them |
| Webhooks.FlowsOwned | backend/src/routes/webhooks.js:102-106 | each flow is a tenant's active automation with its nodes |
| Webhooks.FlowsOrdered | backend/src/routes/webhooks.js:107 | flows come in `created_at` order |
| Webhooks.FlowsComplete | backend/src/routes/webhooks.js:102-106 | every active automation of the tenant has a flow |
| Webhooks.AnyKeyword | backend/src/routes/webhooks.js:139-140 | some keyword is a case-insensitive substring of the text |
| Webhooks.FirstTriggered | backend/src/routes/webhooks.js:134-144 | the first automation whose trigger fires, or none when none fires |
| Webhooks.MenuTriggerNeverFires | backend/src/routes/webhooks.js:134-144 | a menu trigger never starts an automation |
| Webhooks.EmptyKeywordFiresAlways | backend/src/routes/webhooks.js:140 | an empty keyword fires on every text |
| Webhooks.KeywordCaseInsensitive | backend/src/routes/webhooks.js:140 | keyword matching ignores letter case |
| Webhooks.GetNodeByIndex | backend/src/routes/webhooks.js:223-227 | the node at a position of the sorted nodes, none out of range |
| Webhooks.FindKey | backend/src/routes/webhooks.js:124 | the first option with the key, or none |
| Webhooks.OptionLines | backend/src/routes/webhooks.js:217 | one `*key*  label` line per option, in order |
| Webhooks.BuildMenuText | backend/src/routes/webhooks.js:211-221 | the content first; the content alone unless a menu with options; a throw exactly when menu options do not parse |
| Webhooks.MenuListing | backend/src/routes/webhooks.js:213-218 | under a menu, a blank line and then exactly one line per option |
| Webhooks.StoredNodesRender | backend/src/routes/webhooks.js:211-221 | every node the automation routes store renders |
| Webhooks.ResumeIndex | backend/src/routes/webhooks.js:121-128 | at a non-menu node, or past the nodes, the next position; a throw exactly when menu options do not parse |
| Webhooks.ResumeFollowsStoredMenu | backend/src/routes/webhooks.js:122-125 | a reply equal to an option key jumps to that option's `next_node_order`; any other goes on |
| Webhooks.StoredOptionsDecode | backend/src/routes/webhooks.js:123 | stored options parse back |
| Webhooks.ResumeAtMenu | backend/src/routes/webhooks.js:122-125 | at a menu, the resume position follows the key search |
| Webhooks.FindKeyFirst | backend/src/routes/webhooks.js:124 | the search finds the first option with the key |
| Webhooks.FindFlow | backend/src/routes/webhooks.js:117 | the first flow of the session's automation, or none |
| Webhooks.SessionTakesPrecedence | backend/src/routes/webhooks.js:116-130 | a session of an active automation is resumed whatever the triggers say |
| Webhooks.FirstFiringAutomationStarts | backend/src/routes/webhooks.js:132-148 | without a resumable session, the first firing automation starts at 0; none fires, nothing starts |
| Webhooks.SendNode | backend/src/routes/webhooks.js:185-209 | at most one request per node, to the phone on the instance, none exactly when the text throws; a media request with the built text as caption exactly when the node has a media type other than none and a media URL, otherwise a text request carrying the built text |
| Webhooks.WalkPastEnd | backend/src/routes/webhooks.js:154 | a start past the last node sends nothing and leaves the session |
| Webhooks.WalkSession | backend/src/routes/webhooks.js:154-182 | the session is saved at the first wait or menu node and cleared exactly when there is none |
| Webhooks.WalkBounds | backend/src/routes/webhooks.js:154-182 | every request answers the phone, at most one per node, pauses of 2 to 4 s |
| Webhooks.ApplyWalkFramed | backend/src/routes/webhooks.js:154-182 | applying a walk changes only the session, the requests and the pauses |
| Webhooks.BotFrame | backend/src/routes/webhooks.js:88-183 | the bot changes only the contact's session and appends requests and pauses |
| Webhooks.UnmatchedMessageIgnored | backend/src/routes/webhooks.js:132-148 | no session and no firing trigger change nothing |
| Webhooks.FinalWaitKeepsContact | backend/src/routes/webhooks.js:116-182 | a session at a final wait node is never completed: every later message changes nothing |
| Webhooks.ActiveFlowOf | backend/src/routes/webhooks.js:101-107 | an active automation's flow carries its nodes |
| Webhooks.ApplyNothing | backend/src/routes/webhooks.js:154 | an empty walk changes nothing |
| Webhooks.ResumeAfterFinalWait | backend/src/routes/webhooks.js:121-128 | a session at a final wait resumes past the end |
| Webhooks.BotFrom | backend/src/routes/webhooks.js:148-182 | the bot from a known start is the walk from it |
| Webhooks.SendBotMessage | backend/src/routes/webhooks.js:185-209 | the node's request is made and nothing else changes |
| Webhooks.WalkStep | backend/src/routes/webhooks.js:170-176 | a message node sends and pauses, then the walk goes on |
| Webhooks.RunWalk | backend/src/routes/webhooks.js:154-182 | the node loop on the store is the walk function |
| Webhooks.Suspend | backend/src/routes/webhooks.js:157-168 | a wait or menu node saves the session and stops |
| Webhooks.Advance | backend/src/routes/webhooks.js:170-181 | a `message` node sends and pauses unless last; any other non-stopping node sends nothing and does not pause; the last node clears the session |
| Webhooks.ProcessBotMessage | backend/src/routes/webhooks.js:88-183 | the handler is the bot function; where it throws, nothing has changed |
| Webhooks.TenantByInstance | backend/src/routes/webhooks.js:70-74 | `.single()` finds a tenant exactly when one tenant is on the instance |
| Webhooks.FindTenant | backend/src/routes/webhooks.js:70-76 | the tenant lookup on the store |
| Webhooks.SkippedMessagesChangeNothing | backend/src/routes/webhooks.js:54-80 | own, group, empty and unknown-instance messages change nothing |
| Webhooks.HandleMessages | backend/src/routes/webhooks.js:53-81 | the message loop on the store is the upsert function |
| Webhooks.HandleMessage | backend/src/routes/webhooks.js:54-80 | one message of the loop, stopping the route where the bot throws |
| Webhooks.OtherEventsIgnored | backend/src/routes/webhooks.js:12-13 | missing or unknown events change nothing and are acknowledged |
| Webhooks.HandleWebhook | backend/src/routes/webhooks.js:11-84 | the route on the store is the webhook function |

## Left out

- I/O is not modelled. The store, the queue and the gateway are a value `Db` with ghost logs of gateway requests, queued jobs and pauses. Supabase filters and the BullMQ retry, backoff, repeat and worker settings are not modelled.
- Clocks and randomness are parameters, not modelled: `new Date()`, local `getHours`/`getDay`, `Math.random`, and the one-month default end date (`setMonth`).
- The worker's `Math.random` draws are whole permille values. The bot's 2–4 s pause is an integer jitter below 2000 ms, so fractional milliseconds are not modelled.
- Floating point is replaced by integers. The typing pause is `chars * 10000 / 33` rounded down. The report percentages are not modelled.
- Concurrency is not modelled: five concurrent jobs, and races between the scheduler, resume and a running job. Writes by other requests during a job appear only as the status the poll reads (`Env.external`).
- Byte decoding is not modelled. The `Buffer` UTF-8/latin1 decoding in `parseCSV` and `parseVCF` is the identity on strings. Case-insensitive matching and `toLowerCase` fold ASCII letters only.
- `JSON.parse` is modelled only for the canonical text `JSON.stringify` writes for an options array. Any other text counts as a parse failure.
- `interpolate` does not model object-prototype keys such as `{toString}`.
- Campaign, tenant and connection columns that only describe are not modelled: description, `started_at`, `finished_at`, `queue_job_id`, `wa_phone_number`, `wa_profile_name`, the connection timestamps, `delivered_at`, `sent_at` and `failed_at`.
- `.single()` is modelled as exactly one matching row. PostgREST's embedded `automation_nodes` come in table order.
- `Ordering.SortBy` sorts values. The source sorts the fetched array in place, so the model does not capture aliasing of that array.
- The campaign list and detail routes, the automation list, detail and DELETE routes, and the calendar's month bounds are plain queries with no logic. They are not modelled.
- A recurrence end date written `YYYY-MM-DD` is parsed by `new Date` as UTC midnight, not local midnight. The model takes the end date as a local time, so the UTC offset at the last day is not modelled.
- `Calendar.DayOfMonth`: daylight-saving shifts are not modelled. Local time is a plain count of minutes, and the `HH:MM` text of recurrence times is a pair of integers.
- `CampaignWorker.TypingMs` is applied to the number of characters of the text. The code's `.length` counts UTF-16 code units, so a text with characters outside the Basic Multilingual Plane (emoji, say) gets a shorter presence delay in the model than in the code.
- The worker's typing wait, the `setTimeout` after the presence request, is not in the log of pauses. Only the presence request that carries its length is modelled, so the pause counts of `CampaignWorker.DrainPacing` and `CampaignWorker.RunPacing` are counts of pacing pauses only.
- `Webhooks.Bot`: the typing presence of `sendText` and the gateway's own delay options are not part of the pauses.
- `CampaignWorker.RunJob`: the initial write that sets the status to running has no `started_at`. The per-contact `sending` write is kept.
- A failed `campaign_contacts` or `automation_nodes` insert is modelled as storing none of its rows, and the route goes on as the code does. A partial insert is not modelled.
- `PhoneFilter.EncodeQuotedPrintable` has no counterpart in the code. It escapes every character, and `PhoneFilter.DecodeEncode` proves that decoding inverts it.
- `PhoneFilter.SplitOnCIJoin` gives the text back only up to the case of the separators, since the pieces do not record how each separator was written.
- `PhoneFilter.CollapseCRLF` is a reference definition for `SplitLinesJoin`; the code has no such function.
- `PhoneFilter.NormalizeIdempotent` is weaker than full idempotence. A result longer than 11 digits that still starts with 0 can only come from 15 or more input digits, and would lose a carrier prefix a second time.
- `PhoneFilter.CarrierPrefixRemoved` assumes what remains after the prefix does not qualify for removal again. The source removes the prefix once.
