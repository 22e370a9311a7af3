# WhatsApp staff bot: message handler model

A Dafny model of the message handler of a WhatsApp bot for shift staff
(`whatsapp.js`). The handler receives one webhook payload at a time. It
reduces the sender's phone to its digits and decides whether the sender is
the manager (the configured admin phone), a whitelisted staff member, or an
unknown number. An unknown number gets a fixed denial (skipped while that
number is itself blocked), and the admin gets a one-time alert about it. A
known sender's trimmed, lowercased text is matched against an ordered chain
of command patterns, and the first match wins:

- shift start and shift stop;
- report and meal;
- status;
- for the manager only, broadcast, stats and add-staff;
- otherwise an AI reply.

Every outbound message goes through `sendText`. Replies and broadcasts skip
recipients that are blocked because an earlier send failed with platform
code 131030; alerts to the admin bypass this check (`allowBlocked`). Such a
block lasts 15 minutes and expires lazily. When a recipient gets blocked,
`sendText` alerts the admin, at most once per 15 minutes per recipient.
There is no alert when the failed send was itself an alert, when the
recipient is the admin, or when no admin is configured (whatsapp.js:199-203).

The model is functional. A `Handler.Context` holds everything the handler
mutates:

- the shift records;
- the reports;
- the whitelist;
- the delivery health: the blocked recipients and the time of the last alert per recipient;
- the set of unknown phones already reported.

`Handler.HandleIncoming` is one step. Its inputs are the context, a payload,
the clock reading `now` and the outcomes the platform gives to the sends.
It returns the next context, the sends and sheet writes it made (in the
model's order; see `Delivery.DeliverAll` under "## Left out" for a
broadcast), and the outcomes it did not use. `Handler.Run` folds it over a sequence of
events.

Modules, in dependency order:

| file | module | what it holds |
|---|---|---|
| wrappers.dfy | `Wrappers` | `Option` |
| strings.dfy | `Strings` | digit filtering, JavaScript `trim`, lowercasing, substring tests, decimal spelling |
| seqs.dfy | `Seqs` | duplicate removal, split and join on separator characters |
| digitrun.dfy | `DigitRun` | the first run of seven or more digits (`/\d{7,}/`) |
| store.dfy | `Store` | shift records, reports, whitelist construction and growth |
| messages.dfy | `Messages` | reply bodies and their texts, the unknown-sender preview, outbound effects |
| delivery.dfy | `Delivery` | `sendText` with its block and alert logic, and the broadcast |
| classifier.dfy | `Classifier` | the command patterns and the first-match-wins chain |
| handler.dfy | `Handler` | `senderInfo`, `notifyAdminOfUnknownStaff`, `handleIncoming`, runs of events |
| properties.dfy | `HandlerProperties` | what one message and a run of messages may change and send |

In these places the code's behaviour is easy to misread; the model follows the code:

- **Block boundary.** A block counts while `now - blockedAt <= TTL`: the
  check at whatsapp.js:176 evicts only when more than the TTL has passed, so
  a block still holds at exactly 15 minutes (`Delivery.BlockedForTtl`).
- **Shift start.** A shift start replaces the whole record
  (whatsapp.js:69), so an earlier end time is dropped (`Store.StartShift`).
- **Alert timing.** The alert time for a blocked recipient is recorded
  before the alert is sent, whatever the alert's outcome (whatsapp.js:217-218).
- **Unknown-number alerts.** These are not throttled by time. They use their
  own set: one alert per phone per process lifetime, and none at all when no
  admin phone is configured (whatsapp.js:238).
- **Broadcast text.** The broadcast text is the message split on every `:`
  and `-`, with the pieces after the first joined with `:`
  (whatsapp.js:110). So a later `-` in the text arrives as `:`
  (`Handler.BroadcastPayloadAfterSeparator`).
- **Add-staff command.** The command word is `добавить`. A missing number
  and an already listed number get the same usage reply.

## Model

| member | source | states |
|---|---|---|
| Strings.Digits | whatsapp.js:38 | the result holds exactly the digit characters of the input and nothing else; an all-digit input is returned unchanged |
| Strings.DigitsConcat | whatsapp.js:38 | the digit filter of a concatenation is the concatenation of the filtered parts, so the digits keep their order and their repeats |
| Strings.DigitsOfChar | whatsapp.js:38 | a single character is kept exactly when it is a digit |
| Strings.Lower | whatsapp.js:65 | the result has the input's length and each character is that character lowercased |
| Strings.NatToString | whatsapp.js:120 | a count is spelled as a non-empty digit string without leading zeros; ParseNatToString reads it back |
| Strings.Trim | whatsapp.js:65 | the result is a slice of the input with only whitespace before and after it, and neither of its ends is JavaScript whitespace |
| Strings.TrimEmptyIff | whatsapp.js:110 | trimming gives the empty text exactly when every character is whitespace |
| Strings.TrimIdempotent | whatsapp.js:65 | trimming twice is trimming once |
| Strings.LowerIdempotent | whatsapp.js:65 | lowercasing twice is lowercasing once |
| Strings.LowerKeepsNonLetters | whatsapp.js:65 | lowercasing leaves separators and digits where they are, so the command patterns see them unchanged |
| Strings.ParseNatToString | whatsapp.js:120 | the decimal spelling of a count in the stats reply reads back as the same number |
| Seqs.Dedup | whatsapp.js:13-22 | `Array.from(new Set(..))`: no duplicates, the same members, and a duplicate-free input unchanged; the order is DedupKeepsFirstOrder's |
| Seqs.DedupKeepsFirstOrder | whatsapp.js:13-22 | the deduplicated list holds its elements in the order of their first occurrences in the input, as a `Set` iterates in insertion order |
| Seqs.Split | whatsapp.js:110 | splitting gives at least one piece and no piece holds a separator |
| Seqs.JoinSplit | whatsapp.js:110 | joining the pieces with `:` is the text with every separator replaced by `:` |
| Seqs.SplitJoinRoundTrip | whatsapp.js:110 | joining separator-free pieces with one of the separators and splitting on the separator class gives the pieces back |
| Seqs.SplitAtFirst | whatsapp.js:110 | the first piece is everything before the first separator and the rest is the split of what follows it |
| DigitRun.FirstWindow | whatsapp.js:126 | the index found starts seven digits in a row and no earlier index does; `None` means no index does |
| DigitRun.LongDigitRun | whatsapp.js:126 | there is a match exactly when some seven digits stand in a row, and a match is seven or more digits |
| DigitRun.LongDigitRunIsLeftmostLongest | whatsapp.js:126 | the match starts at the leftmost seven-digit window and runs to the end of that run of digits |
| DigitRun.DigitsAfterNonDigits | whatsapp.js:126 | a digit-free text followed by seven or more digits matches exactly those digits |
| DigitRun.AddStaffNumber | whatsapp.js:131 | the usage reply's own example `добавить: +491234567890` yields `491234567890` |
| Store.StartShift | whatsapp.js:67-69 | the sender's record becomes exactly on with the start time and no end time; every other record is unchanged |
| Store.StopShift | whatsapp.js:75-80 | the sender's record becomes off with the end time and keeps any start time; every other record is unchanged |
| Store.StartShiftCount | whatsapp.js:117 | a shift start raises the on-shift count by one unless the sender was already on |
| Store.StopShiftCount | whatsapp.js:117 | a shift stop lowers the on-shift count by one if the sender was on |
| Store.CountOn | whatsapp.js:117 | no contract; the number of records whose status is on, related to the shift commands by StartShiftCount and StopShiftCount |
| Store.StartThenStop | whatsapp.js:67-80 | start then stop leaves a record that is off and carries both times |
| Store.AppendReport | whatsapp.js:87-89 | the reports grow by one at the end, holding the sender and the text as written |
| Store.CleanPhones | whatsapp.js:16-19 | every kept entry is a non-empty digit string; every entry with digits is kept as its digits; nothing else is kept |
| Store.ConfiguredPhones | whatsapp.js:16-17 | no contract; the configured list split on `,` and cleaned by CleanPhones, whose row states the result |
| Store.BuildWhitelist | whatsapp.js:12-22 | the start-up whitelist is well formed (no duplicates, non-empty digit entries), begins with the default phone, and holds exactly the default and the configured phones |
| Store.AddStaff | whatsapp.js:125-133 | a number is added exactly when the text has a seven-digit run that is not listed yet, at the end; otherwise nothing changes; well-formedness is preserved |
| Store.AddStaffTwice | whatsapp.js:127-131 | repeating the same add-staff text adds nothing the second time |
| Store.AddStaffExample | whatsapp.js:125-131 | `добавить: +491234567890` adds `491234567890` once, and the repeat adds nothing |
| Messages.Preview | whatsapp.js:242 | the preview is at most 120 characters: a text within the limit whole, a longer one as its first 117 characters and `...` |
| Messages.DisplayPhone | whatsapp.js:148-151 | a digit phone is shown with a leading `+` |
| Messages.Render | whatsapp.js:60-131 | no contract; the literal texts of the replies and alerts, pinned for the stats reply by StatsText |
| Delivery.Gate | whatsapp.js:174-186 | the send goes ahead exactly when blocked recipients are allowed or the recipient is not blocked; only an expired block is evicted, and no recipient's blocked status changes |
| Delivery.Blocked | whatsapp.js:174-176 | no contract; a recipient is blocked while a block entry exists that is at most 15 minutes old, the definition Gate and SkippedIffBlocked state their facts in |
| Delivery.AlertWanted | whatsapp.js:197-214 | no contract; the alert condition (code 131030, not an alert send, an admin configured, not the admin, throttle passed) that Attempt's contract states the second send by |
| Delivery.SendText | whatsapp.js:171-230 | a plain send makes at most two sends, an alert send at most one; something is sent exactly when allowed; the first send is the body to the recipient; any further send is a blocked-recipient alert to the admin |
| Delivery.Attempt | whatsapp.js:188-229 | one delivery: the body is sent, and a second send (the admin alert) happens exactly when the alert is wanted |
| Delivery.SkippedIffBlocked | whatsapp.js:174-186 | a plain send is skipped exactly when the recipient is blocked, and then nothing changes |
| Delivery.OtherOutcomeChangesNothing | whatsapp.js:195-205 | an outcome other than code 131030 changes no state and sends nothing more |
| Delivery.NotAllowedBlocks | whatsapp.js:195-221 | code 131030 blocks the recipient, the admin included, with the code and the current time; the recipient's alert time becomes now exactly when an alert is sent; no other recipient's alert time moves, and no block of anyone but the recipient and the admin changes |
| Delivery.BlockedForTtl | whatsapp.js:174-185 | after a 131030 failure, every plain send to that recipient within 15 minutes, the boundary included, is skipped |
| Delivery.BlockExpires | whatsapp.js:176-177 | once more than 15 minutes have passed since a block, the next plain send to that recipient goes out |
| Delivery.AlertThrottled | whatsapp.js:212-218 | after an alert about a recipient, another failure within 15 minutes does not alert again |
| Delivery.Admit | whatsapp.js:234 | the admitted recipients are exactly the non-empty, unblocked ones, without duplicates, and the gate checks change no one's blocked status |
| Delivery.DeliverAll | whatsapp.js:234 | each admitted recipient gets the body exactly once, in issue order; every other send is a blocked-recipient alert to the admin |
| Delivery.Broadcast | whatsapp.js:232-235 | each distinct, non-empty, unblocked whitelist entry gets the body exactly once and nobody else does; every other send is an alert to the admin |
| Classifier.Classify | whatsapp.js:65-142 | the result matches and belongs to the role's pattern list, and no earlier pattern matches; fallback exactly when nothing matches; staff never get a manager command |
| Classifier.ClassifyIsFirstMatch | whatsapp.js:67-135 | the handler's chain of tests is first-match-wins over the role's ordered pattern list |
| Classifier.StaffMatchWinsForManager | whatsapp.js:102-109 | a text that gives a staff-level command gives the same command for the manager |
| Classifier.BroadcastOfStatusIsStatus | whatsapp.js:102-111 | the manager's `рассылка: статус` is the status command, not a broadcast |
| Classifier.ReportMentioningStatusIsReport | whatsapp.js:87-106 | `отчёт: статус ок` is a report for either role |
| Classifier.NormalizeFixed | whatsapp.js:65 | a text without surrounding whitespace or capital letters is its own normal form |
| Classifier.StatsWord | whatsapp.js:116 | `статистика` is the manager's stats command |
| Classifier.AddStaffWord | whatsapp.js:125 | `добавить: +491234567890` is the manager's add-staff command |
| Classifier.Matches | whatsapp.js:67-125 | no contract; the eight command tests as substring and anchored-prefix tests, which Classify and ClassifyIsFirstMatch are stated over |
| Classifier.Normalize | whatsapp.js:65 | no contract; trim then lowercase, stated by Trim, Lower and NormalizeFixed |
| Handler.SenderInfo | whatsapp.js:35-42 | the phone is the digits of the sender's `from` and the text is the message body (both empty when absent), a message is present exactly when the payload has one, and the name is the contact's name or the default, never empty |
| Handler.InitialContext | whatsapp.js:13-33 | the process starts with no shifts, no reports, no blocked recipients, no alert times, no alerted phones, and the whitelist built from the configured list |
| Handler.MakeConfig | whatsapp.js:11 | the admin phone is all digits and holds exactly the digit characters of the configured value; an all-digit value is kept as it is |
| Handler.RoleOf | whatsapp.js:50 | no contract; the sender is the manager exactly when the phone is the admin's |
| Handler.Authorised | whatsapp.js:51 | no contract; the sender is known when the phone is the admin's or whitelisted; its properties are the UnknownSenderIsDenied and KnownSenderIsNotDenied rows |
| Handler.Reply | whatsapp.js:58-61 | a reply changes only the delivery health of the context, and its sends follow the sends made before it, as one plain `sendText` to the sender |
| Handler.StatusOf | whatsapp.js:103-104 | no contract; the sender's shift status, or none when the sender has no record (the reply then reads `не на смене`) |
| Handler.Perform | whatsapp.js:65-142 | each command changes only its own state: shift commands only the shifts (as StartShift or StopShift), the report command only appends a report, the add-staff command only the whitelist (as AddStaff), only the broadcast touches delivery health or sends ahead of the reply; no command replies with the denial or an unknown-sender alert |
| Handler.Command | whatsapp.js:65-142 | no contract; the classified command followed by its reply; its properties are the CommandOrdinary and KnownSenderIsNotDenied rows |
| Handler.HandleIncoming | whatsapp.js:44-146 | no contract; its properties are the HandlerProperties rows |
| Handler.Run | whatsapp.js:44-146 | no contract; messages handled one after another; its properties are the AdminAlertedOncePerPhone and RunKeepsWhitelist rows |
| Handler.NotifyAdminOfUnknownStaff | whatsapp.js:237-250 | with an admin configured the phone is remembered, and exactly one alert with the message preview goes to the admin unless the phone was remembered before; without an admin nothing happens |
| Handler.BroadcastPayloadAfterSeparator | whatsapp.js:110 | the broadcast text is what follows the first separator, with later separators turned into `:`, trimmed |
| Handler.BroadcastBlankIsDefault | whatsapp.js:110-111 | after the first separator, the broadcast text is empty exactly when the rest of the message is whitespace, and then the default text is broadcast |
| Handler.BroadcastPayload | whatsapp.js:110 | no contract; split, drop the first piece, join with `:`, trim, stated by BroadcastPayloadAfterSeparator and BroadcastBlankIsDefault |
| Handler.BroadcastBody | whatsapp.js:111 | no contract; the payload, or the default text when it is empty, stated by BroadcastBlankIsDefault |
| HandlerProperties.UnknownSenderIsDenied | whatsapp.js:50-63 | an unknown sender changes no shift, report or whitelist entry; the phone is remembered when an admin is configured; the sender gets the denial unless blocked; every send is the denial to the sender or an alert about the sender to the admin |
| HandlerProperties.IgnoredPayload | whatsapp.js:47-48 | a payload without a message or without a sender phone leaves the context unchanged, sends nothing and uses no send outcome |
| HandlerProperties.KnownSenderIsNotDenied | whatsapp.js:50-53 | the admin and whitelisted staff never get the denial, never cause an unknown-sender alert, and leave the remembered phones as they were |
| HandlerProperties.CommandOrdinary | whatsapp.js:65-142 | no command sends a denial or an unknown-sender alert |
| HandlerProperties.StepUnknownAlerts | whatsapp.js:237-250 | one message alerts about a phone at most once, never about a remembered phone, and only after remembering it |
| HandlerProperties.AdminAlertedOncePerPhone | whatsapp.js:237-250 | over any run of messages the admin is alerted about a phone at most once, and not at all if it was alerted before |
| HandlerProperties.WhitelistGrowsWellFormed | whatsapp.js:125-133 | one message keeps the whitelist well formed, keeps every entry in place and adds at most one |
| HandlerProperties.RunKeepsWhitelist | whatsapp.js:125-133 | over any run of messages the whitelist stays well formed and only grows at the end |
| HandlerProperties.ReportsAppendOnly | whatsapp.js:87-93 | a known sender's report command appends exactly that report with the original text and the time; any other message leaves the reports unchanged |
| HandlerProperties.ShiftsChangeOnlyForSender | whatsapp.js:67-85 | only the sender's record can change: start sets it on with no end time, stop sets it off and keeps the start time, everything else leaves the shifts alone |
| HandlerProperties.StatsReplyCounts | whatsapp.js:116-122 | the manager's stats reply carries the number of on-shift records and of reports, and changes no shift, report or whitelist entry |
| Messages.StatsText | whatsapp.js:120 | three on shift and seven reports read `📈 На смене сейчас: 3. Всего отчётов за сегодня: 7.` |
| HandlerProperties.BroadcastReachesEachStaffOnce | whatsapp.js:108-113 | the manager's broadcast sends its text once to each distinct, non-empty, unblocked whitelist entry and to nobody else; the other sends are the confirmation and admin alerts |
| HandlerProperties.BroadcastWithConfirmation | whatsapp.js:232-235 | a broadcast followed by its confirmation to the admin still reaches each eligible whitelist entry once and nobody else with the broadcast text |
| HandlerProperties.BroadcastStep | whatsapp.js:108-113 | the manager's broadcast command produces exactly the broadcast's sends followed by the confirmation to the admin |
| HandlerProperties.AddStaffCommand | whatsapp.js:125-133 | the manager's add-staff command grows the whitelist by the store's rule; the reply names the added phone, or is the usage message when nothing was added |

## Left out

- `dispatchMessage` (whatsapp.js:153-169), the HTTP request to the platform. Each send's result is an input: a stream of `Messages.Outcome` values, where an exhausted stream reads as delivered. A thrown error without a platform code is `Failed` with any code other than 131030, which behaves the same way.
- `aiAnswer` and `buildReplyForRole` (ai.js and templates.js are not part of this model). The AI reply is the parameter `ai: (Role, string) -> string`; an AI failure is whatever text that function returns.
- `writeToSheet` (google.js is not part of this model). It is a fire-and-forget `SheetWrite` effect with no result.
- Timestamps. `toLocaleString("ru-RU")` formatting is not modelled: records and rows keep the millisecond clock reading. Each event has one clock reading, so all `Date.now()` calls within one message are taken as equal.
- Configuration. `ADMIN_PHONE` and `STAFF_PHONES` are parameters (`Handler.MakeConfig`, `Handler.InitialContext`); environment loading is left out.
- The HTTP side: the immediate `200` response, router and server wiring, webhook verification and token refresh. None of these hold handler state.
- Console logging, including the warning that uses `displayPhone` for a skipped send.
- Interleaving of concurrent handler invocations. Each message runs to completion before the next.
- Order of settlement within a broadcast. `Promise.all` is modelled in two phases: every gate check runs first, as they do before the first await, then each delivery and its reaction to its outcome, in issue order. The order in which responses come back is not modelled.
- Delivery.DeliverAll: places each blocked-recipient alert right after the failed body send that caused it, whereas the program (whatsapp.js:234) issues every body send before any reaction runs, so all alerts follow all the broadcast's body sends. Only the order of the sends in the effect list and the pairing of outcomes with sends differ; each send goes to the same recipient with the same body, and the blocks and alert times come out the same.
- The `catch` in `notifyAdminOfUnknownStaff` (whatsapp.js:251-257). It can never run, because `sendText` catches every error, so the model has no path that forgets a remembered phone.
- The outer `catch` of `handleIncoming` (whatsapp.js:143-145). No modelled step throws.
- Strings.Lower: lowercases only ASCII `A`-`Z` and Cyrillic `U+0400`-`U+042F`, not all of Unicode `toLowerCase`. These are the letters the command words use.
- Messages.Preview: counts Unicode code points, while JavaScript's `length` and `slice` count UTF-16 units. A text with characters outside the Basic Multilingual Plane can therefore be cut at a different place.
- HandlerProperties.AdminAlertedOncePerPhone: states at most one alert per phone. Exactly one alert for a newly seen phone with an admin configured is stated per message by `Handler.NotifyAdminOfUnknownStaff`.
