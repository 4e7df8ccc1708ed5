/**
 * Delivery: `sendEventNotification` from bay lookup to the per-device send tally, the
 * two document triggers that call it, and `cleanupInvalidTokens`. Firestore reads are
 * values passed in; the messaging service is a function from (attempt index, token)
 * to the outcome of that one send.
 */
module Delivery {
  import opened Wrappers
  import opened Strings
  import opened Voltage
  import opened Hierarchy
  import opened Preferences
  import opened Recipients
  import opened Events
  import opened Message

  /** The outcome of one `messaging.send`: delivered, or rejected with an optional error code. */
  datatype Outcome = Delivered | Failed(code: Option<string>)

  /** The visible part of the message: notification, Android and APNs settings. */
  datatype Payload = Payload(
    title: string,
    body: string,
    androidPriority: string,
    channelId: string,
    color: string,
    androidSound: string,
    apnsCategory: string,
    apnsSound: string)

  /** What one call did: stopped at the bay lookup, found nobody, or sent to each token. */
  datatype Report =
    | BayNotFound
    | NoRecipients
    | Sent(payload: Payload, tokens: seq<string>, successCount: nat, failureCount: nat)

  /** The attributes the preference gates see: lower-cased type, parsed voltage, lower-cased bay type. */
  function ContextFor(ev: EventRecord, bay: Bay): EventContext {
    EventContext(ToLower(ev.eventType), ParseVoltageLevel(bay.voltageLevel), ToLower(OrElse(bay.bayType, "")), ev.substationId)
  }

  /** The message sent to every device. */
  function PayloadFor(ev: EventRecord, bay: Bay, status: Status, formatTime: Option<Timestamp> -> string): Payload {
    Payload(
      Title(ev, bay, status),
      Join(BodyLines(ev, status, formatTime), "\n"),
      AndroidPriority(ev.eventType),
      NotificationChannel(ev.eventType, status),
      NotificationColor(ev.eventType, status),
      NotificationSound(ev.eventType),
      NotificationChannel(ev.eventType, status),
      NotificationSound(ev.eventType))
  }

  /** The Android and APNs settings agree with each other and with the channel's colour. */
  lemma PayloadConsistent(ev: EventRecord, bay: Bay, status: Status, formatTime: Option<Timestamp> -> string)
    ensures var p := PayloadFor(ev, bay, status, formatTime);
      && p.color == ChannelColor(p.channelId)
      && p.apnsCategory == p.channelId
      && p.apnsSound == p.androidSound
      && (p.androidPriority == "high" <==> p.androidSound == "alert.wav")
      && (status == Open ==> (p.androidPriority == "high" <==> p.channelId == "emergency"))
      && (status == Closed ==> p.channelId == "status_update")
  {
    ColorFollowsChannel(ev.eventType, status);
    PrioritySoundChannelAgree(ev.eventType);
  }

  /** The outcome of each send, in token order; as many are delivered as there are delivered attempts. */
  function Outcomes(tokens: seq<string>, send: (nat, string) -> Outcome): (r: seq<Outcome>)
    ensures DeliveredCount(r) == |DeliveredAttempts(tokens, send, |tokens|)|
  {
    var r := seq(|tokens|, i requires 0 <= i < |tokens| => send(i, tokens[i]));
    DeliveredPrefix(tokens, send, r, |tokens|);
    assert r[..|tokens|] == r;
    r
  }

  /** Counting the first `n` outcomes counts the attempts among the first `n` that were delivered. */
  lemma {:induction false} DeliveredPrefix(tokens: seq<string>, send: (nat, string) -> Outcome, outs: seq<Outcome>, n: nat)
    requires |outs| == |tokens| && n <= |tokens|
    requires forall i :: 0 <= i < |tokens| ==> outs[i] == send(i, tokens[i])
    ensures DeliveredCount(outs[..n]) == |DeliveredAttempts(tokens, send, n)|
    decreases n
  {
    if n == 0 {
      assert DeliveredAttempts(tokens, send, 0) == {};
    } else {
      DeliveredPrefix(tokens, send, outs, n - 1);
      assert outs[..n][..n - 1] == outs[..n - 1];
      DeliveredAttemptsStep(tokens, send, n);
    }
  }

  /** One more attempt adds one to the delivered attempts exactly when it was delivered. */
  lemma DeliveredAttemptsStep(tokens: seq<string>, send: (nat, string) -> Outcome, n: nat)
    requires 0 < n <= |tokens|
    ensures |DeliveredAttempts(tokens, send, n)| ==
      |DeliveredAttempts(tokens, send, n - 1)| + (if send(n - 1, tokens[n - 1]).Delivered? then 1 else 0)
  {
    assert n - 1 !in DeliveredAttempts(tokens, send, n - 1);
    if send(n - 1, tokens[n - 1]).Delivered? {
      assert DeliveredAttempts(tokens, send, n) == DeliveredAttempts(tokens, send, n - 1) + {n - 1};
    } else {
      assert DeliveredAttempts(tokens, send, n) == DeliveredAttempts(tokens, send, n - 1);
    }
  }

  /** How many outcomes are deliveries. */
  function DeliveredCount(outs: seq<Outcome>): (n: nat)
    ensures n <= |outs|
    decreases |outs|
  {
    if outs == [] then 0
    else DeliveredCount(outs[..|outs| - 1]) + (if outs[|outs| - 1].Delivered? then 1 else 0)
  }

  /** Counting splits over concatenation: one failed send does not affect the others' count. */
  lemma {:induction false} DeliveredCountAppend(a: seq<Outcome>, b: seq<Outcome>)
    ensures DeliveredCount(a + b) == DeliveredCount(a) + DeliveredCount(b)
    decreases |b|
  {
    if b == [] {
      assert a + b == a;
    } else {
      var front := b[..|b| - 1];
      assert (a + b)[..|a + b| - 1] == a + front;
      DeliveredCountAppend(a, front);
    }
  }

  /** Every send succeeded iff the count is the number of sends. */
  lemma {:induction false} DeliveredCountAll(outs: seq<Outcome>)
    ensures DeliveredCount(outs) == |outs| <==> forall i :: 0 <= i < |outs| ==> outs[i].Delivered?
    decreases |outs|
  {
    if outs != [] {
      var front := outs[..|outs| - 1];
      DeliveredCountAll(front);
      if forall i :: 0 <= i < |outs| ==> outs[i].Delivered? {
        assert forall i :: 0 <= i < |front| ==> front[i] == outs[i];
      }
    }
  }

  /** The attempts among the first `n` whose send was delivered. */
  function DeliveredAttempts(tokens: seq<string>, send: (nat, string) -> Outcome, n: nat): set<nat>
    requires n <= |tokens|
  {
    set i: nat | i < n && send(i, tokens[i]).Delivered?
  }

  /**
   * The send loop: one `send` per token, in order; each delivery counts as a success
   * and each rejection as a failure, and a rejection never stops the loop.
   */
  method TallySends(tokens: seq<string>, send: (nat, string) -> Outcome)
    returns (successCount: nat, failureCount: nat)
    ensures successCount == |DeliveredAttempts(tokens, send, |tokens|)|
    ensures successCount == DeliveredCount(Outcomes(tokens, send))
    ensures successCount + failureCount == |tokens|
  {
    ghost var outs := Outcomes(tokens, send);
    successCount, failureCount := 0, 0;
    for i := 0 to |tokens|
      invariant successCount == DeliveredCount(outs[..i])
      invariant successCount + failureCount == i
    {
      var response := send(i, tokens[i]);
      assert outs[..i + 1][..i] == outs[..i];
      if response.Delivered? {
        successCount := successCount + 1;
      } else {
        failureCount := failureCount + 1;
      }
    }
    assert outs[..|tokens|] == outs;
  }

  /** The users collection, the hierarchy and the per-user documents, as read during one call. */
  datatype Store = Store(
    bays: map<Id, Bay>,
    org: Org,
    users: seq<User>,
    preferences: map<Id, Prefs>,
    tokens: map<Id, TokenRecord>)

  /** The candidates the hierarchy query yields for an event. */
  function CandidatesFor(ev: EventRecord, db: Store): seq<Candidate> {
    EligibleUsers(db.org, db.users, ev.substationId)
  }

  /** The tokens the preference filter yields for an event on a bay. */
  function RecipientsFor(ev: EventRecord, bay: Bay, db: Store): seq<string> {
    RecipientTokens(CandidatesFor(ev, db), db.preferences, db.tokens, ContextFor(ev, bay))
  }

  /** The report of `sendEventNotification`. */
  function Dispatch(ev: EventRecord, status: Status, db: Store, formatTime: Option<Timestamp> -> string, send: (nat, string) -> Outcome): Report {
    if ev.bayId !in db.bays then BayNotFound
    else
      var bay := db.bays[ev.bayId];
      var recipients := RecipientsFor(ev, bay, db);
      if recipients == [] then NoRecipients
      else Delivery(ev, bay, status, recipients, formatTime, send)
  }

  /** The report of sending the event's message to each of the tokens. */
  function Delivery(ev: EventRecord, bay: Bay, status: Status, recipients: seq<string>,
                    formatTime: Option<Timestamp> -> string, send: (nat, string) -> Outcome): Report {
    var delivered := DeliveredCount(Outcomes(recipients, send));
    Sent(PayloadFor(ev, bay, status, formatTime), recipients, delivered, |recipients| - delivered)
  }

  /** The preference documents after the call: defaults written for candidates without one. */
  function PreferencesAfter(ev: EventRecord, db: Store): map<Id, Prefs> {
    if ev.bayId !in db.bays then db.preferences
    else WithDefaults(db.preferences, CandidatesFor(ev, db))
  }

  /**
   * `sendEventNotification`: look up the bay, parse its voltage, collect the candidates,
   * filter them, and, when any token is left, build one message and send it to each token.
   */
  method SendEventNotification(ev: EventRecord, status: Status, db: Store,
                               formatTime: Option<Timestamp> -> string, send: (nat, string) -> Outcome)
    returns (report: Report, preferencesOut: map<Id, Prefs>)
    ensures report == Dispatch(ev, status, db, formatTime, send)
    ensures preferencesOut == PreferencesAfter(ev, db)
  {
    if ev.bayId !in db.bays {
      return BayNotFound, db.preferences;
    }
    var bay := db.bays[ev.bayId];
    var eligibleUsers := GetEligibleUsersForSubstation(db.org, db.users, ev.substationId);
    var context := ContextFor(ev, bay);
    var recipientTokens;
    recipientTokens, preferencesOut := FilterUsersForNotification(eligibleUsers, db.preferences, db.tokens, context);
    assert recipientTokens == RecipientsFor(ev, bay, db);
    if recipientTokens == [] {
      return NoRecipients, preferencesOut;
    }
    report := SendToRecipients(ev, bay, status, recipientTokens, formatTime, send);
  }

  /** Build the message once and send it to each token in turn, counting the outcomes. */
  method SendToRecipients(ev: EventRecord, bay: Bay, status: Status, recipientTokens: seq<string>,
                          formatTime: Option<Timestamp> -> string, send: (nat, string) -> Outcome)
    returns (report: Report)
    ensures report == Delivery(ev, bay, status, recipientTokens, formatTime, send)
  {
    var title, body := FormatNotificationMessage(ev, bay, status, formatTime);
    var channel := NotificationChannel(ev.eventType, status);
    var sound := NotificationSound(ev.eventType);
    var payload := Payload(
      title, body, AndroidPriority(ev.eventType), channel, NotificationColor(ev.eventType, status), sound, channel, sound);
    var successCount, failureCount := TallySends(recipientTokens, send);
    report := Sent(payload, recipientTokens, successCount, failureCount);
  }

  /**
   * A message goes out iff the bay exists and some token survives the filter; it then goes
   * to exactly the filtered tokens, and successes plus failures account for every send.
   */
  lemma DispatchSentIff(ev: EventRecord, status: Status, db: Store, formatTime: Option<Timestamp> -> string, send: (nat, string) -> Outcome)
    ensures Dispatch(ev, status, db, formatTime, send).Sent? <==>
      ev.bayId in db.bays && RecipientsFor(ev, db.bays[ev.bayId], db) != []
    ensures Dispatch(ev, status, db, formatTime, send) == BayNotFound <==> ev.bayId !in db.bays
    ensures var r := Dispatch(ev, status, db, formatTime, send);
      r.Sent? ==>
        && r.tokens == RecipientsFor(ev, db.bays[ev.bayId], db)
        && r.successCount + r.failureCount == |r.tokens|
        && r.payload == PayloadFor(ev, db.bays[ev.bayId], status, formatTime)
  {
  }

  /**
   * Every device reached belongs to a user of the substation's hierarchy whose preferences
   * admit the event and whose token record is active; and every such user's token is sent to.
   */
  lemma SentOnlyToSubscribers(ev: EventRecord, status: Status, db: Store, formatTime: Option<Timestamp> -> string, send: (nat, string) -> Outcome, t: string)
    requires ev.bayId in db.bays
    ensures var r := Dispatch(ev, status, db, formatTime, send);
      (r.Sent? && t in r.tokens) <==>
        exists c :: c in CandidatesFor(ev, db)
          && Evaluate(PrefsFor(db.preferences, c.userId), ContextFor(ev, db.bays[ev.bayId])) == Pass
          && c.userId in db.tokens && db.tokens[c.userId].active == Some(true)
          && db.tokens[c.userId].token == Some(t) && t != ""
  {
    RecipientTokensIff(CandidatesFor(ev, db), db.preferences, db.tokens, ContextFor(ev, db.bays[ev.bayId]));
  }

  /** Every send succeeded iff the success count is the number of tokens. */
  lemma AllDeliveredIff(ev: EventRecord, status: Status, db: Store, formatTime: Option<Timestamp> -> string, send: (nat, string) -> Outcome)
    requires Dispatch(ev, status, db, formatTime, send).Sent?
    ensures var r := Dispatch(ev, status, db, formatTime, send);
      r.failureCount == 0 <==> forall i :: 0 <= i < |r.tokens| ==> send(i, r.tokens[i]).Delivered?
  {
    var bay := db.bays[ev.bayId];
    SentAllDelivered(ev, bay, status, RecipientsFor(ev, bay, db), formatTime, send);
  }

  /** No failure is counted iff every send of the delivery was delivered. */
  lemma SentAllDelivered(ev: EventRecord, bay: Bay, status: Status, recipients: seq<string>,
                         formatTime: Option<Timestamp> -> string, send: (nat, string) -> Outcome)
    ensures var r := Delivery(ev, bay, status, recipients, formatTime, send);
      r.failureCount == 0 <==> forall i :: 0 <= i < |recipients| ==> send(i, recipients[i]).Delivered?
  {
    var outs := Outcomes(recipients, send);
    assert forall i :: 0 <= i < |outs| ==> outs[i] == send(i, recipients[i]);
    DeliveredCountAll(outs);
  }

  /**
   * The category gate follows the event type: a Shutdown is judged by the shutdown flag,
   * a Tripping by the tripping flag.
   */
  lemma CategoryFollowsEventType(p: Prefs, ev: EventRecord, bay: Bay)
    requires NotifiedType(ev.eventType)
    ensures CategoryEnabled(p, ContextFor(ev, bay).notificationType) <==>
      (if ev.eventType == "Shutdown" then p.enableShutdownNotifications else p.enableTrippingNotifications) == Some(true)
  {
    if ev.eventType == "Shutdown" {
      assert ToLower(ev.eventType) == "shutdown";
    } else {
      assert ToLower(ev.eventType)[0] == 't';
    }
  }

  /** `sendEventOpenedNotification`: an "open" notification for a created Tripping or Shutdown entry. */
  method OnEventCreated(data: Option<EventRecord>, db: Store,
                        formatTime: Option<Timestamp> -> string, send: (nat, string) -> Outcome)
    returns (report: Option<Report>, preferencesOut: map<Id, Prefs>)
    ensures report.Some? <==> OpenedTrigger(data)
    ensures report.Some? ==>
      && report.value == Dispatch(data.value, Open, db, formatTime, send)
      && preferencesOut == PreferencesAfter(data.value, db)
    ensures report.None? ==> preferencesOut == db.preferences
  {
    if data.None? {
      return None, db.preferences;
    }
    var eventData := data.value;
    if eventData.eventType != "Tripping" && eventData.eventType != "Shutdown" {
      return None, db.preferences;
    }
    var r;
    r, preferencesOut := SendEventNotification(eventData, Open, db, formatTime, send);
    report := Some(r);
  }

  /** `sendEventClosedNotification`: a "closed" notification when the status goes from OPEN to CLOSED. */
  method OnEventUpdated(before: Option<EventRecord>, after: Option<EventRecord>, db: Store,
                        formatTime: Option<Timestamp> -> string, send: (nat, string) -> Outcome)
    returns (report: Option<Report>, preferencesOut: map<Id, Prefs>)
    ensures report.Some? <==> ClosedTrigger(before, after)
    ensures report.Some? ==>
      && report.value == Dispatch(after.value, Closed, db, formatTime, send)
      && preferencesOut == PreferencesAfter(after.value, db)
    ensures report.None? ==> preferencesOut == db.preferences
  {
    if before.None? || after.None? {
      return None, db.preferences;
    }
    if before.value.status != Some("OPEN") || after.value.status != Some("CLOSED") {
      return None, db.preferences;
    }
    if after.value.eventType != "Tripping" && after.value.eventType != "Shutdown" {
      return None, db.preferences;
    }
    var r;
    r, preferencesOut := SendEventNotification(after.value, Closed, db, formatTime, send);
    report := Some(r);
  }

  /** One entry of a batch response's failures: the index of the token and the error code. */
  datatype SendFailure = SendFailure(index: int, errorCode: Option<string>)

  /** The two error codes that mean the token will never work again. */
  predicate IsPermanentTokenError(code: Option<string>) {
    code == Some("messaging/registration-token-not-registered") || code == Some("messaging/invalid-registration-token")
  }

  /**
   * The tokens to deactivate: for each failure with a permanent error code, in order,
   * the token at its index; `None` stands for an index outside the token list.
   */
  function InvalidTokens(failures: seq<SendFailure>, originalTokens: seq<string>): (r: seq<Option<string>>)
    ensures |r| <= |failures|
    decreases |failures|
  {
    if failures == [] then []
    else
      var f := failures[|failures| - 1];
      var init := InvalidTokens(failures[..|failures| - 1], originalTokens);
      if !IsPermanentTokenError(f.errorCode) then init
      else init + [if 0 <= f.index < |originalTokens| then Some(originalTokens[f.index]) else None]
  }

  /** A token is selected iff some failure with a permanent code points at it. */
  lemma {:induction false} InvalidTokensIff(failures: seq<SendFailure>, originalTokens: seq<string>, t: string)
    ensures Some(t) in InvalidTokens(failures, originalTokens) <==>
      exists f :: f in failures && IsPermanentTokenError(f.errorCode)
        && 0 <= f.index < |originalTokens| && originalTokens[f.index] == t
    ensures None in InvalidTokens(failures, originalTokens) <==>
      exists f :: f in failures && IsPermanentTokenError(f.errorCode)
        && !(0 <= f.index < |originalTokens|)
    decreases |failures|
  {
    if failures != [] {
      var init := failures[..|failures| - 1];
      var f := failures[|failures| - 1];
      assert failures == init + [f];
      InvalidTokensIff(init, originalTokens, t);
    }
  }

  /** An `fcmTokens` document, in collection order. */
  datatype TokenDoc = TokenDoc(docId: Id, record: TokenRecord)

  /** `where("token", "==", t).limit(1)`: the first document holding the token, if any. */
  function FirstHolder(docs: seq<TokenDoc>, t: string): (r: Option<nat>)
    ensures r.Some? ==>
      && r.value < |docs| && docs[r.value].record.token == Some(t)
      && forall i :: 0 <= i < r.value ==> docs[i].record.token != Some(t)
    ensures r.None? ==> forall i :: 0 <= i < |docs| ==> docs[i].record.token != Some(t)
    decreases |docs|
  {
    if docs == [] then None
    else if docs[0].record.token == Some(t) then Some(0)
    else
      var r := FirstHolder(docs[1..], t);
      if r.Some? then Some(r.value + 1) else None
  }

  /** Whether a document is the first holder of one of the tokens. */
  predicate Targeted(docs: seq<TokenDoc>, invalid: seq<string>, i: nat) {
    exists k :: 0 <= k < |invalid| && FirstHolder(docs, invalid[k]) == Some(i)
  }

  function Deactivate(d: TokenDoc): TokenDoc {
    d.(record := d.record.(active := Some(false)))
  }

  /** The collection after the batch: each targeted document marked inactive, the rest untouched. */
  function Deactivated(docs: seq<TokenDoc>, invalid: seq<string>): (r: seq<TokenDoc>)
    ensures |r| == |docs|
  {
    seq(|docs|, i requires 0 <= i < |docs| => if Targeted(docs, invalid, i) then Deactivate(docs[i]) else docs[i])
  }

  /**
   * `cleanupInvalidTokens`: select the tokens, look up the first holder of each, and commit
   * one batch that marks them inactive. A selected `undefined` token makes the lookup throw
   * before the commit, so nothing changes and the result is `None`.
   */
  method CleanupInvalidTokens(failures: seq<SendFailure>, originalTokens: seq<string>, docs: seq<TokenDoc>)
    returns (docsOut: Option<seq<TokenDoc>>)
    ensures None in InvalidTokens(failures, originalTokens) <==> docsOut.None?
    ensures docsOut.Some? ==> docsOut.value == Deactivated(docs, Present(InvalidTokens(failures, originalTokens)))
  {
    var invalidTokens := InvalidTokens(failures, originalTokens);
    if invalidTokens == [] {
      assert Present(invalidTokens) == [];
      return Some(docs);
    }
    var batch := CollectBatch(invalidTokens, docs);
    if batch.None? {
      return None;
    }
    PresentAll(invalidTokens);
    var committed := CommitBatch(docs, batch.value);
    docsOut := Some(committed);
    forall j | 0 <= j < |docs|
      ensures committed[j] == Deactivated(docs, Present(invalidTokens))[j]
    {
      TargetedIff(docs, invalidTokens, j);
    }
  }

  /**
   * The lookup loop: the index of the first holder of each token, or `None` when some
   * token is `undefined`, on which the query throws.
   */
  method CollectBatch(invalidTokens: seq<Option<string>>, docs: seq<TokenDoc>) returns (batch: Option<set<nat>>)
    ensures batch.None? <==> None in invalidTokens
    ensures batch.Some? ==> forall i :: i in batch.value <==>
      exists j :: 0 <= j < |invalidTokens| && FirstHolder(docs, invalidTokens[j].value) == Some(i)
  {
    var found: set<nat> := {};
    for k := 0 to |invalidTokens|
      invariant None !in invalidTokens[..k]
      invariant forall i :: i in found <==> exists j :: 0 <= j < k && FirstHolder(docs, invalidTokens[j].value) == Some(i)
    {
      if invalidTokens[k].None? {
        assert invalidTokens[k] in invalidTokens;
        return None;
      }
      var holder := FirstHolder(docs, invalidTokens[k].value);
      if holder.Some? {
        found := found + {holder.value};
      }
      assert invalidTokens[..k + 1] == invalidTokens[..k] + [invalidTokens[k]];
    }
    assert invalidTokens[..|invalidTokens|] == invalidTokens;
    batch := Some(found);
  }

  /** The commit: every document in the batch marked inactive, the others untouched. */
  method CommitBatch(docs: seq<TokenDoc>, batch: set<nat>) returns (committed: seq<TokenDoc>)
    ensures |committed| == |docs|
    ensures forall j :: 0 <= j < |docs| ==> committed[j] == (if j in batch then Deactivate(docs[j]) else docs[j])
  {
    committed := docs;
    for i := 0 to |docs|
      invariant |committed| == |docs|
      invariant forall j :: 0 <= j < |docs| ==> committed[j] == (if j < i && j in batch then Deactivate(docs[j]) else docs[j])
    {
      if i in batch {
        committed := committed[i := Deactivate(docs[i])];
      }
    }
  }

  /** The tokens that are present, in order. */
  function Present(ts: seq<Option<string>>): (r: seq<string>)
    ensures |r| <= |ts|
    decreases |ts|
  {
    if ts == [] then []
    else Present(ts[..|ts| - 1]) + (if ts[|ts| - 1].Some? then [ts[|ts| - 1].value] else [])
  }

  lemma {:induction false} PresentAll(ts: seq<Option<string>>)
    requires None !in ts
    ensures |Present(ts)| == |ts|
    ensures forall j :: 0 <= j < |ts| ==> Present(ts)[j] == ts[j].value
    decreases |ts|
  {
    if ts != [] {
      var front := ts[..|ts| - 1];
      assert forall j :: 0 <= j < |front| ==> front[j] == ts[j];
      PresentAll(front);
    }
  }

  lemma TargetedIff(docs: seq<TokenDoc>, ts: seq<Option<string>>, i: nat)
    requires None !in ts
    requires |Present(ts)| == |ts|
    requires forall j :: 0 <= j < |ts| ==> Present(ts)[j] == ts[j].value
    ensures Targeted(docs, Present(ts), i) <==> exists j :: 0 <= j < |ts| && FirstHolder(docs, ts[j].value) == Some(i)
  {
    var p := Present(ts);
    if Targeted(docs, p, i) {
      var k :| 0 <= k < |p| && FirstHolder(docs, p[k]) == Some(i);
      assert FirstHolder(docs, ts[k].value) == Some(i);
    }
    if exists j :: 0 <= j < |ts| && FirstHolder(docs, ts[j].value) == Some(i) {
      var j :| 0 <= j < |ts| && FirstHolder(docs, ts[j].value) == Some(i);
      assert FirstHolder(docs, p[j]) == Some(i);
    }
  }

  /**
   * Deactivation keeps every document's id and token, changes only the `active` flag of the
   * first holder of each invalid token, and running it twice changes nothing more.
   */
  lemma DeactivatedEffect(docs: seq<TokenDoc>, invalid: seq<string>)
    ensures var r := Deactivated(docs, invalid);
      forall i :: 0 <= i < |docs| ==>
        && r[i].docId == docs[i].docId
        && r[i].record.token == docs[i].record.token
        && (r[i].record.active == Some(false) || r[i] == docs[i])
        && (r[i] != docs[i] ==> Targeted(docs, invalid, i))
    ensures forall t :: t in invalid && FirstHolder(docs, t).Some? ==>
      Deactivated(docs, invalid)[FirstHolder(docs, t).value].record.active == Some(false)
  {
    forall t | t in invalid && FirstHolder(docs, t).Some?
      ensures Targeted(docs, invalid, FirstHolder(docs, t).value)
    {
      var k :| 0 <= k < |invalid| && invalid[k] == t;
    }
  }

  /** The lookup only reads tokens, which deactivation keeps: a second cleanup changes nothing. */
  lemma {:induction false} FirstHolderOnSameTokens(a: seq<TokenDoc>, b: seq<TokenDoc>, t: string)
    requires |a| == |b|
    requires forall i :: 0 <= i < |a| ==> a[i].record.token == b[i].record.token
    ensures FirstHolder(a, t) == FirstHolder(b, t)
    decreases |a|
  {
    if a != [] {
      FirstHolderOnSameTokens(a[1..], b[1..], t);
    }
  }

  lemma DeactivatedIdempotent(docs: seq<TokenDoc>, invalid: seq<string>)
    ensures Deactivated(Deactivated(docs, invalid), invalid) == Deactivated(docs, invalid)
  {
    var once := Deactivated(docs, invalid);
    DeactivatedEffect(docs, invalid);
    forall t ensures FirstHolder(once, t) == FirstHolder(docs, t) {
      FirstHolderOnSameTokens(once, docs, t);
    }
    forall i | 0 <= i < |docs| ensures Targeted(once, invalid, i) == Targeted(docs, invalid, i) {
    }
  }
}
