# Substation event notifications: recipient selection and message building

This project models the notification core of the substation-management back end
(`functions/index.js`). When an entry in `trippingShutdownEntries` is created, or
its status goes from `OPEN` to `CLOSED`, the back end sends a push notification for
a Tripping or Shutdown event. Each such call does the following:

- It looks up the bay the event happened on.
- It parses the bay's free-text voltage level (`"132kV"`).
- It walks the organisation hierarchy (substation, subdivision, division, circle, zone)
  and collects the managers at each level, then all admins.
- It passes each candidate through that user's notification preferences. Users without
  preferences get a default record written and are judged by it. The gates are:
  the category flag, the voltage thresholds, the bay types and the substations.
- It takes the active device token of each user who passed.
- It formats one title and body. The body is a list of emoji-marked lines that depends
  on the event type and on whether the event opened or closed.
- It sends the message to every token, one send at a time, and counts the successes
  and failures.
- A separate routine, `cleanupInvalidTokens`, deactivates the token documents whose
  sends failed with a permanent error code.

The model has one module per concern:

- `Strings`: the JavaScript string operations the core uses: number printing,
  ASCII `toLowerCase`, `trim`, `join` and `split`.
- `Voltage`: `parseVoltageLevel` and the leftmost match of `/(\d+)kV/i`.
- `Hierarchy`: `getEligibleUsersForSubstation`.
- `Preferences`: preference records, their defaults and the four gates.
- `Recipients`: `filterUsersForNotification`.
- `Events`: event documents, bays and the two trigger conditions.
- `Message`: `calculateEventDuration`, `formatNotificationMessage`, channel, colour,
  priority and sound.
- `Delivery`: `sendEventNotification`, the triggers and `cleanupInvalidTokens`.

Firestore collections appear as values. The bays, the hierarchy records, the preference
documents and the `fcmTokens` documents read by the filter are maps keyed by document id
(for tokens, the user id). The users collection, and the `fcmTokens` collection that
`cleanupInvalidTokens` queries by token, are sequences in query order. The messaging service appears as a
function from (attempt index, token) to the outcome of that one send. Methods are
proved against specification functions, and the lemmas state what those functions
guarantee.

Behaviour of the code that the model keeps as written:

- There is no preference or token cache, no cache lifetime and no de-duplication of tokens.
  Every call reads each candidate's documents afresh and sends once per collected token.
- A stored preference record that lacks the flag for the event's category excludes the user.
- A missing `subscribedSubstations` list lets every substation through.
- A falsy threshold counts as 0 and admits every voltage.
- Division managers are queried whenever the subdivision names a division, even one that
  does not exist.
- `cleanupInvalidTokens` is defined but has no caller. Sends are individual, not a batch
  with a failure list.
- The creation trigger does not look at the entry's status.

## Model

| member | source | states |
|---|---|---|
| Strings.NatToString | functions/index.js:68-72 | a number prints as non-empty decimal digits without a leading zero, which read back as the number |
| Strings.IntToString | functions/index.js:68 | the text starts with a minus sign exactly when the number is negative, and the rest is decimal digits without a leading zero that read back as the magnitude |
| Strings.ToLower | functions/index.js:513 | lower-casing keeps the length, leaves no capital, replaces each capital by the small letter at its place in the alphabet and keeps every other character |
| Strings.TrimSlice | functions/index.js:82-85 | `Trim`: the trimmed cause is a contiguous slice of the text with only white space around it, and it neither starts nor ends with white space |
| Strings.ToLowerIdempotent | functions/index.js:585-588 | lower-casing an already lower-cased bay type changes nothing |
| Strings.TrimEmptyIff | functions/index.js:82-85 | a cause trims to the empty string exactly when it is all white space |
| Strings.Join | functions/index.js:173-176 | `join` puts the first line first, and its length is one separator short of every line followed by a separator |
| Strings.JoinAppend | functions/index.js:173-176 | `Join`: joining one more line appends the separator and that line |
| Strings.SplitJoin | functions/index.js:173-176 | joining lines with a separator none of them contains and splitting again gives back the lines |
| Voltage.CaptureIsRun | functions/index.js:492 | the digit group of a match is the whole run of digits where the match starts |
| Voltage.MatchesAtIff | functions/index.js:492 | the pattern matches at a position exactly when a non-empty digit run starts there and is followed by k and V in either case |
| Voltage.FindMatch | functions/index.js:492 | the scan returns a match with no match before it, or none when there is no match at all |
| Voltage.FirstCaptureUnique | functions/index.js:492 | the leftmost match and its digit group are unique |
| Voltage.ParseVoltageLevel | functions/index.js:490-494 | an absent or empty field, or one without a match, gives 0; otherwise the value of the leftmost match's digits |
| Voltage.ParsePrintedVoltage | functions/index.js:490-494 | a number printed after digit-free text and followed by "kV" parses back to that number |
| Voltage.NoUnitNoVoltage | functions/index.js:490-494 | a field with no k in any case parses to 0 |
| Hierarchy.ResolveFollowsLinks | functions/index.js:366-402 | `Resolve`: the walk fails exactly when the substation, its subdivision link or the subdivision is missing; each higher level is set only when the record below exists and links to it |
| Hierarchy.PushLevel | functions/index.js:411-418 | one level's query appends exactly the users it selects, in collection order |
| Hierarchy.GetEligibleUsersForSubstation | functions/index.js:366-485 | the candidate list equals the walk followed by the per-level queries and the admins |
| Hierarchy.NoCandidatesWithoutSubdivision | functions/index.js:372-380 | a missing substation, subdivision link or subdivision yields no candidates |
| Hierarchy.SelectMembers | functions/index.js:406-418 | a level's query yields exactly the users with that role assigned to that node, each tagged with that level |
| Hierarchy.CandidatesAreUsersInScope | functions/index.js:403-479 | a candidate is exactly a user whose manager role is assigned to a node on the resolved chain, or an admin |
| Hierarchy.SelectAtLevel | functions/index.js:411-418 | every candidate a level's query yields carries that level |
| Hierarchy.CandidatesOrderedByLevel | functions/index.js:403-479 | candidates come out subdivision first, then division, circle, zone and admin |
| Hierarchy.TruncatedLevelsContributeNobody | functions/index.js:384-466 | with no division link the candidates are only subdivision managers and admins; with no division record or no circle link, nobody is at circle or zone level; with no circle record or no zone link, nobody is at zone level |
| Hierarchy.SelectDistinct | functions/index.js:406-418 | a query over users with distinct ids yields distinct ids |
| Hierarchy.OneIdOneLevel | functions/index.js:403-479 | when user ids are distinct, two candidates with the same id carry the same level |
| Hierarchy.CandidatesHaveDistinctIds | functions/index.js:403-479 | when user ids are distinct, no user appears twice among the candidates |
| Preferences.AddMissing | functions/index.js:568-571 | adding the optional thresholds that are not yet present gives exactly the union of both lists |
| Preferences.VoltageUnion | functions/index.js:563-571 | the combined threshold list holds exactly the subscribed and the enabled optional thresholds, counting a non-array as empty |
| Preferences.SomeAdmitsIff | functions/index.js:572-574 | the some-test holds exactly when one threshold is at most the voltage |
| Preferences.VoltageGateIff | functions/index.js:562-581 | the voltage gate passes exactly when a subscribed or an enabled optional threshold admits the voltage |
| Preferences.EmptyUnionExcludes | functions/index.js:563-578 | with no thresholds at all, the voltage gate excludes every voltage |
| Preferences.FalsyThresholdAdmitsAll | functions/index.js:572-574 | a falsy threshold counts as 0 and admits every voltage |
| Preferences.VoltageGateMonotone | functions/index.js:572-574 | a user admitted at one voltage is admitted at every higher voltage |
| Preferences.LowerAll | functions/index.js:584-586 | lower-casing the bay types succeeds exactly when every entry is text, and then lower-cases each entry in place |
| Preferences.BayTypeGateIff | functions/index.js:583-595 | the bay gate throws exactly when a non-text entry is listed, and passes exactly when a listed entry lower-cases to "all" or to the event's bay type |
| Preferences.EvaluateIff | functions/index.js:547-607 | `Evaluate`: a candidate passes exactly when all four gates hold, and each skip or throw names the first gate that fails |
| Preferences.MissingFlagExcludes | functions/index.js:547-560 | a record without the flag for the event's category excludes the user at the first gate |
| Preferences.DefaultPrefsAdmit | functions/index.js:529-539 | the default record admits an event exactly when its voltage is at least 132 and its bay type is line or transformer |
| Recipients.WithDefaultsKeepsPrefs | functions/index.js:525-545 | writing defaults for candidates without a record never changes the preferences anyone is judged by |
| Recipients.FilterUsersForNotification | functions/index.js:499-638 | the tokens collected equal the tokens of the passing candidates in order, and the store gains a default record for each candidate that had none |
| Recipients.RecipientTokensAppend | functions/index.js:515-634 | the tokens of two candidate lists in a row are the tokens of the first followed by those of the second |
| Recipients.RecipientTokensIff | functions/index.js:515-634 | a token is collected exactly when some candidate passes every gate and holds it as an active, non-empty token; there are at most as many tokens as candidates |
| Recipients.SingleCandidate | functions/index.js:611-630 | one candidate contributes its token exactly when it passes and its token record is active with a non-empty token |
| Recipients.FaultSkipsOnlyThatCandidate | functions/index.js:631-633 | a candidate whose record makes a gate throw contributes nothing, and the candidates around it are unaffected |
| Recipients.StoreAfterFilter | functions/index.js:525-545 | after the filter the store holds the old records unchanged plus a default record for each candidate that had none, and nothing else |
| Recipients.DefaultsWrittenOnce | functions/index.js:525-545 | running the filter again on its own output writes nothing more and selects the same tokens |
| Recipients.RecipientTokensOnSamePrefs | functions/index.js:520-527 | stores that judge every user by the same preferences select the same tokens |
| Recipients.NewUserJudgedByDefaults | functions/index.js:529-545 | a candidate without a record is judged by the default record |
| Events.OnlyTrippingAndShutdownNotify | functions/index.js:328-356 | neither trigger fires for a type other than Tripping or Shutdown; a close notification implies a status change of an entry the creation trigger would have announced |
| Events.NoOpenNoClose | functions/index.js:354 | an entry that is never OPEN before its last version is never announced as closed |
| Events.AtMostOneCloseNotification | functions/index.js:354 | an entry that is never reopened is announced as closed at most once, and never if it starts out not OPEN |
| Message.EventDuration | functions/index.js:58-74 | the duration is empty exactly when the start or the end time is missing |
| Message.DurationText | functions/index.js:64-73 | under an hour the text is the floored minutes and "m"; from an hour on it is the hours, "h ", the remaining minutes and "m" |
| Message.DurationRoundTrip | functions/index.js:58-74 | for an end not before the start, reading the duration text back gives the elapsed whole minutes |
| Message.ChannelAndColorByEvent | functions/index.js:306-314 | `NotificationChannel` and `NotificationColor`: a closed event goes to the status-update channel in green, an open Tripping to the emergency channel in red, any other open event to the maintenance channel in orange |
| Message.ColorFollowsChannel | functions/index.js:306-314 | the colour is always the one of the chosen channel: green for status updates, red for emergencies, orange for maintenance |
| Message.PrioritySoundChannelAgree | functions/index.js:252-264 | `AndroidPriority` and `NotificationSound`: priority is high exactly for a Tripping and normal otherwise, the sound is alert.wav or default, and high priority, the alert sound and, for an open event, the emergency channel go together |
| Message.TitleShape | functions/index.js:93-126 | `Title`: the title starts with the restored mark when closed, otherwise with the lightning mark exactly for a Tripping and the plug otherwise; the event type follows one space later, and the title ends with ": " and the bay's name |
| Message.LineStartsWithMarker | functions/index.js:95-169 | every body line is non-empty and starts with the symbol of its kind |
| Message.FormatNotificationMessage | functions/index.js:79-177 | the title and body equal the specified title and the newline-joined list of shown lines in the fixed order |
| Message.AppendPersonLines | functions/index.js:104-113 | a shutdown's person and designation lines are appended when those fields are truthy |
| Message.AppendTailLines | functions/index.js:115-170 | a closed event's body ends with its duration when there is one; an open event's ends with its tripping details |
| Message.AppendTrippingLines | functions/index.js:150-170 | a tripping's phases, distance and auto-reclose lines are appended under their own conditions |
| Message.BodyLinesShape | functions/index.js:91-171 | every body starts with the substation, time and flag lines and has at most 7 lines: a Tripping at most 5 when closed and 7 when open, a Shutdown at most 7 when closed and 6 when open |
| Message.CauseLineIff | functions/index.js:82-101 | the cause line appears exactly when the trimmed cause is not blank |
| Message.BodySplitsIntoLines | functions/index.js:173-176 | the body splits back into its lines when no line contains a newline |
| Delivery.PayloadConsistent | functions/index.js:251-267 | the colour matches the channel, the APNs category and sound equal the Android channel and sound, and high priority goes with the alert sound |
| Delivery.DeliveredCount | functions/index.js:271-298 | the success count never exceeds the number of sends |
| Delivery.DeliveredCountAll | functions/index.js:274-298 | every send succeeded exactly when the success count equals the number of sends |
| Delivery.Outcomes | functions/index.js:273-297 | the number of delivered outcomes equals the number of delivered attempts |
| Delivery.TallySends | functions/index.js:270-298 | the success count is the number of attempts whose send was delivered, and successes plus failures equal the number of tokens |
| Delivery.SendEventNotification | functions/index.js:182-303 | the report and the preference documents afterwards equal the specified dispatch and the store with defaults written |
| Delivery.SendToRecipients | functions/index.js:215-298 | one payload is built from the formatted message and sent to each token, and the sends are tallied |
| Delivery.DispatchSentIff | functions/index.js:182-213 | a message goes out exactly when the bay exists and some token survives filtering; the report names those tokens, the payload and tallies that add up |
| Delivery.SentOnlyToSubscribers | functions/index.js:196-213 | a token is sent to exactly when a candidate of the substation passes its preferences for this bay and holds that active token |
| Delivery.AllDeliveredIff | functions/index.js:270-302 | no failure is counted exactly when every individual send was delivered |
| Delivery.CategoryFollowsEventType | functions/index.js:548-551 | a shutdown is judged by the shutdown flag and a tripping by the tripping flag |
| Delivery.OnEventCreated | functions/index.js:319-335 | `OpenedTrigger`: an open notification is dispatched exactly when the document exists and is a Tripping or Shutdown; otherwise nothing changes |
| Delivery.OnEventUpdated | functions/index.js:341-359 | `ClosedTrigger`: a closed notification is dispatched exactly when both versions exist, the status goes OPEN to CLOSED and the type is Tripping or Shutdown; otherwise nothing changes |
| Delivery.InvalidTokens | functions/index.js:644-651 | at most one selected token per failure |
| Delivery.InvalidTokensIff | functions/index.js:644-651 | a token is selected exactly when a failure with a permanent error code points at it; an undefined entry exactly when such a failure points outside the list |
| Delivery.FirstHolder | functions/index.js:655-659 | the token query yields the first document holding the token, or none when no document holds it |
| Delivery.Deactivated | functions/index.js:652-664 | the batch leaves the number of documents unchanged (which documents change, and how, is DeactivatedEffect) |
| Delivery.CleanupInvalidTokens | functions/index.js:643-667 | nothing is committed exactly when an undefined token was selected; otherwise the collection becomes the one with the first holder of each selected token marked inactive |
| Delivery.CollectBatch | functions/index.js:653-663 | the batch holds exactly the first holders of the selected tokens, or the lookup fails on an undefined token |
| Delivery.CommitBatch | functions/index.js:660-664 | committing marks exactly the batched documents inactive and leaves the others untouched |
| Delivery.TargetedIff | functions/index.js:654-662 | a document is updated exactly when it is the first holder of some selected token |
| Delivery.DeactivatedEffect | functions/index.js:652-664 | ids and tokens stay in place, a document changes only when targeted and then only by being marked inactive, and the first holder of each selected token ends up inactive |
| Delivery.DeactivatedIdempotent | functions/index.js:652-664 | deactivating the same tokens twice has the effect of doing it once |

## Left out

- Firestore reads, writes and their failures are not modelled, except for two exception
  paths. In the filter, a bay-type entry without `toLowerCase` throws and skips that candidate.
  In the token cleanup, a failure index outside the token list selects `undefined`, the
  query on it throws, and nothing is committed.
  A failed preference read, a failed default write or a failing hierarchy query, which the
  code catches, is not modelled. Neither is a failed bay read (lines 183-184), which the code
  does not catch and which ends the call before any send.
- `formatTime` (lines 25-53) is a function parameter. The date formatting and time zone are not modelled.
- Timestamps are integer milliseconds. The `toDate`/`new Date` conversion is not modelled,
  and neither is the falsiness of a numeric 0 timestamp.
- The payload's `data` map (lines 226-250) is not modelled. It holds the event id, copies of
  the event fields, ISO times, a clock-based `timestamp` and the click action.
- The `deactivatedAt` time written by the token cleanup is left out, because it reads the clock.
- Console logging, `async`/`await` ordering and the concurrency of separate trigger runs are
  not modelled. Two calls racing on the same preference documents are out of scope.
- Message.DistanceString: a numeric distance is modelled as an integer. JavaScript's printing
  of fractional numbers is not modelled.
- Strings.ToLower: only ASCII letters are mapped. Unicode case mapping is not modelled.
- Voltage.ParseVoltageLevel: `parseInt` is modelled as exact. Precision loss for more than
  about 15 digits is not modelled.
- Preferences: a threshold is a number, a falsy value or a value that is not a number.
  A numeric string such as `"132"` is not modelled. The category and `hasAutoReclose` flags
  are booleans or absent; other truthy values are not modelled.
- Events: `eventType` is always a string. A missing type, on which the code's `toLowerCase`
  would throw, is not modelled.
- Delivery.Outcome: the error code of a failed send is carried but not reported, as in the code.
  The code only logs it.
- Hierarchy: the stored user document's fields that the spread copies into a candidate are
  modelled only as far as they override the `userId`. Stored `role` and `level` fields are
  taken to agree with the query.
- Hierarchy.Role: a role other than the five the queries name is `OtherRole(name)`. The model
  does not forbid that name from spelling one of the five (for example "admin"), which the
  queries would treat as that role.
- Recipients.TokenRecord: `active` is a boolean or absent, and only `true` counts as active.
  Other truthy values, such as a non-empty string, are not modelled.
- Message.Render: an absent name or person field prints as `undefined`. A stored `null`,
  which prints as `null`, is not distinguished from an absent field.
- Events.Bay: `name`, `bayType` and `voltageLevel` are text or absent. A stored non-text
  `voltageLevel` (such as the number 132), on which `match` throws (line 492), or a non-text
  `bayType`, on which `toLowerCase` throws (line 190), would end the call before any send.
  Neither is modelled.
- Recipients.FilterUsersForNotification: a stored `userId` that is empty or contains "/"
  makes `.doc(userId)` throw inside the loop's `try` (lines 514-520). The code then skips
  that candidate without writing defaults. The model treats every id as a valid document
  path and writes `DefaultPrefs` under it.
- Events.EventRecord: `flagsCause` is text or absent and `phaseFaults` is a list of text or
  absent. A truthy non-text `flagsCause` (such as the number 5) makes `trim` throw (lines 83-84).
  A truthy `phaseFaults` that has a length but is not an array (such as the string "RY") makes
  `join` throw on a Tripping (lines 153-157). The message is built outside any `try` (line 216),
  so either would end the call after the default preference writes and before any send.
  Neither is modelled.
