/**
 * Preference-gated token collection (`filterUsersForNotification`). The
 * `notificationPreferences` and `fcmTokens` collections are maps from user id to
 * record; the loop reads a candidate's preferences, stores the default record
 * when there is none, applies the four gates and collects the candidate's token.
 */
module Recipients {
  import opened Wrappers
  import opened Hierarchy
  import opened Preferences

  /** An `fcmTokens` record. */
  datatype TokenRecord = TokenRecord(active: Option<bool>, token: Option<string>)

  /** `data.active && data.token`: the token of an existing record that is active and non-empty. */
  function ActiveToken(tokens: map<Id, TokenRecord>, userId: Id): Option<string> {
    if userId in tokens && tokens[userId].active == Some(true)
       && tokens[userId].token.Some? && tokens[userId].token.value != ""
    then tokens[userId].token
    else None
  }

  /** The preferences a candidate is judged by: its stored record, or the default one. */
  function PrefsFor(store: map<Id, Prefs>, userId: Id): Prefs {
    if userId in store then store[userId] else DefaultPrefs
  }

  /** What one candidate contributes: its active token when it passes every gate. */
  function TokenOf(store: map<Id, Prefs>, tokens: map<Id, TokenRecord>, ev: EventContext, c: Candidate): Option<string> {
    if Evaluate(PrefsFor(store, c.userId), ev) == Pass then ActiveToken(tokens, c.userId) else None
  }

  /** The tokens collected from a candidate list, in candidate order. */
  function RecipientTokens(cs: seq<Candidate>, store: map<Id, Prefs>, tokens: map<Id, TokenRecord>, ev: EventContext): seq<string>
    decreases |cs|
  {
    if cs == [] then []
    else
      var t := TokenOf(store, tokens, ev, cs[|cs| - 1]);
      RecipientTokens(cs[..|cs| - 1], store, tokens, ev) + (if t.Some? then [t.value] else [])
  }

  function UserIds(cs: seq<Candidate>): set<Id> {
    set c | c in cs :: c.userId
  }

  /** The preference store after default records are written for the candidates that had none. */
  function WithDefaults(store: map<Id, Prefs>, cs: seq<Candidate>): map<Id, Prefs> {
    store + map id | id in UserIds(cs) && id !in store :: DefaultPrefs
  }

  /** Writing defaults for missing records never changes the preferences anyone is judged by. */
  lemma WithDefaultsKeepsPrefs(store: map<Id, Prefs>, cs: seq<Candidate>, userId: Id)
    ensures PrefsFor(WithDefaults(store, cs), userId) == PrefsFor(store, userId)
  {
  }

  lemma WithDefaultsStep(store: map<Id, Prefs>, cs: seq<Candidate>, c: Candidate)
    ensures WithDefaults(store, cs + [c]) ==
      var s := WithDefaults(store, cs);
      if c.userId in s then s else s[c.userId := DefaultPrefs]
  {
    assert UserIds(cs + [c]) == UserIds(cs) + {c.userId};
  }

  /**
   * `filterUsersForNotification`: for each candidate in order, read or create its
   * preferences, apply the gates, and push its active token.
   */
  method FilterUsersForNotification(
    candidates: seq<Candidate>, store: map<Id, Prefs>, tokens: map<Id, TokenRecord>, ev: EventContext)
    returns (recipientTokens: seq<string>, storeOut: map<Id, Prefs>)
    ensures recipientTokens == RecipientTokens(candidates, store, tokens, ev)
    ensures storeOut == WithDefaults(store, candidates)
  {
    recipientTokens := [];
    storeOut := store;
    assert candidates[..0] == [];
    for k := 0 to |candidates|
      invariant storeOut == WithDefaults(store, candidates[..k])
      invariant recipientTokens == RecipientTokens(candidates[..k], store, tokens, ev)
    {
      var user := candidates[k];
      assert candidates[..k + 1] == candidates[..k] + [user];
      WithDefaultsStep(store, candidates[..k], user);
      WithDefaultsKeepsPrefs(store, candidates[..k], user.userId);
      RecipientTokensStep(candidates[..k], user, store, tokens, ev);
      var preferences: Prefs;
      if user.userId in storeOut {
        preferences := storeOut[user.userId];
      } else {
        preferences := DefaultPrefs;
        storeOut := storeOut[user.userId := preferences];
      }
      if Evaluate(preferences, ev) == Pass {
        if user.userId in tokens {
          var data := tokens[user.userId];
          if data.active == Some(true) && data.token.Some? && data.token.value != "" {
            recipientTokens := recipientTokens + [data.token.value];
          }
        }
      }
    }
    assert candidates[..|candidates|] == candidates;
  }

  lemma RecipientTokensStep(cs: seq<Candidate>, c: Candidate, store: map<Id, Prefs>, tokens: map<Id, TokenRecord>, ev: EventContext)
    ensures RecipientTokens(cs + [c], store, tokens, ev) == RecipientTokens(cs, store, tokens, ev) +
      var t := TokenOf(store, tokens, ev, c); if t.Some? then [t.value] else []
  {
    assert (cs + [c])[..|cs|] == cs;
  }

  /** Tokens of a concatenation are the tokens of each part, in order. */
  lemma {:induction false} RecipientTokensAppend(a: seq<Candidate>, b: seq<Candidate>, store: map<Id, Prefs>, tokens: map<Id, TokenRecord>, ev: EventContext)
    ensures RecipientTokens(a + b, store, tokens, ev) == RecipientTokens(a, store, tokens, ev) + RecipientTokens(b, store, tokens, ev)
    decreases |b|
  {
    if b == [] {
      assert a + b == a;
    } else {
      var b' := b[..|b| - 1];
      assert (a + b)[..|a + b| - 1] == a + b';
      RecipientTokensAppend(a, b', store, tokens, ev);
    }
  }

  /**
   * A token is collected iff some candidate passes every gate and has that token,
   * active and non-empty; at most one token is collected per candidate.
   */
  lemma {:induction false} RecipientTokensIff(cs: seq<Candidate>, store: map<Id, Prefs>, tokens: map<Id, TokenRecord>, ev: EventContext)
    ensures |RecipientTokens(cs, store, tokens, ev)| <= |cs|
    ensures forall t :: t in RecipientTokens(cs, store, tokens, ev) <==>
      exists c :: c in cs && Evaluate(PrefsFor(store, c.userId), ev) == Pass
        && c.userId in tokens && tokens[c.userId].active == Some(true)
        && tokens[c.userId].token == Some(t) && t != ""
    decreases |cs|
  {
    if cs != [] {
      var init := cs[..|cs| - 1];
      RecipientTokensIff(init, store, tokens, ev);
      assert cs == init + [cs[|cs| - 1]];
    }
  }

  lemma SingleCandidate(c: Candidate, store: map<Id, Prefs>, tokens: map<Id, TokenRecord>, ev: EventContext)
    ensures RecipientTokens([c], store, tokens, ev) ==
      var t := TokenOf(store, tokens, ev, c); if t.Some? then [t.value] else []
  {
    assert [c][..0] == [];
  }

  /** A candidate whose record makes the gates throw is skipped and nothing else changes. */
  lemma FaultSkipsOnlyThatCandidate(a: seq<Candidate>, c: Candidate, b: seq<Candidate>, store: map<Id, Prefs>, tokens: map<Id, TokenRecord>, ev: EventContext)
    requires Evaluate(PrefsFor(store, c.userId), ev) == Fault
    ensures RecipientTokens(a + [c] + b, store, tokens, ev) == RecipientTokens(a, store, tokens, ev) + RecipientTokens(b, store, tokens, ev)
  {
    assert TokenOf(store, tokens, ev, c) == None;
    SingleCandidate(c, store, tokens, ev);
    RecipientTokensAppend(a, [c], store, tokens, ev);
    RecipientTokensAppend(a + [c], b, store, tokens, ev);
  }

  /**
   * After the loop the store holds every record it held before, unchanged, plus the
   * default record for each candidate that had none, and nothing else.
   */
  lemma StoreAfterFilter(store: map<Id, Prefs>, cs: seq<Candidate>)
    ensures WithDefaults(store, cs).Keys == store.Keys + UserIds(cs)
    ensures forall id :: id in store ==> WithDefaults(store, cs)[id] == store[id]
    ensures forall c :: c in cs && c.userId !in store ==> WithDefaults(store, cs)[c.userId] == DefaultPrefs
  {
  }

  /**
   * Running the filter again on the store it produced writes nothing new and selects
   * the same tokens: the default write on first read is transparent.
   */
  lemma {:induction false} DefaultsWrittenOnce(store: map<Id, Prefs>, cs: seq<Candidate>, tokens: map<Id, TokenRecord>, ev: EventContext)
    ensures WithDefaults(WithDefaults(store, cs), cs) == WithDefaults(store, cs)
    ensures RecipientTokens(cs, WithDefaults(store, cs), tokens, ev) == RecipientTokens(cs, store, tokens, ev)
  {
    var s := WithDefaults(store, cs);
    assert WithDefaults(s, cs) == s;
    forall id
      ensures PrefsFor(s, id) == PrefsFor(store, id)
    {
      WithDefaultsKeepsPrefs(store, cs, id);
    }
    RecipientTokensOnSamePrefs(cs, s, store, tokens, ev);
  }

  /** Stores that judge every candidate by the same preferences select the same tokens. */
  lemma {:induction false} RecipientTokensOnSamePrefs(cs: seq<Candidate>, s1: map<Id, Prefs>, s2: map<Id, Prefs>, tokens: map<Id, TokenRecord>, ev: EventContext)
    requires forall id :: PrefsFor(s1, id) == PrefsFor(s2, id)
    ensures RecipientTokens(cs, s1, tokens, ev) == RecipientTokens(cs, s2, tokens, ev)
    decreases |cs|
  {
    if cs != [] {
      RecipientTokensOnSamePrefs(cs[..|cs| - 1], s1, s2, tokens, ev);
    }
  }

  /**
   * A candidate with no stored record is judged by the defaults: it contributes its
   * active token iff the voltage is at least 132 and the bay type is "line" or "transformer".
   */
  lemma NewUserJudgedByDefaults(store: map<Id, Prefs>, tokens: map<Id, TokenRecord>, ev: EventContext, c: Candidate)
    requires c.userId !in store
    ensures TokenOf(store, tokens, ev, c) ==
      if ev.voltage >= 132 && ev.bayType in {"line", "transformer"} then ActiveToken(tokens, c.userId) else None
  {
    DefaultPrefsAdmit(ev);
  }
}
