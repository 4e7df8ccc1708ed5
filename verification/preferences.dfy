/**
 * Notification preferences and the four gates `filterUsersForNotification`
 * applies to each candidate, in order: category flag, voltage threshold,
 * bay type, substation.
 */
module Preferences {
  import opened Wrappers
  import opened Strings

  /**
   * A stored voltage threshold as `Number(threshold || 0)` sees it: a number, a
   * falsy value (null, missing, "", false, NaN) that becomes 0, or a truthy value
   * that converts to NaN and so satisfies no comparison.
   */
  datatype Threshold = Number(value: int) | Falsy | NotANumber

  /** A stored bay-type entry: text, or a value without `toLowerCase` (calling it throws). */
  datatype BayEntry = Text(text: string) | NonText

  /**
   * A preference record. A list field is None when the stored value is missing or
   * not an array; a flag is None when missing.
   */
  datatype Prefs = Prefs(
    subscribedVoltageThresholds: Option<seq<Threshold>>,
    optionalVoltageThresholds: Option<seq<Threshold>>,
    enabledOptionalVoltages: Option<seq<Threshold>>,
    subscribedBayTypes: Option<seq<BayEntry>>,
    subscribedSubstations: Option<seq<string>>,
    enableTrippingNotifications: Option<bool>,
    enableShutdownNotifications: Option<bool>)

  /** The record written for a candidate that has none. */
  const DefaultPrefs := Prefs(
    Some([Number(132), Number(220), Number(400), Number(765)]),
    Some([Number(11), Number(33), Number(66), Number(110)]),
    Some([]),
    Some([Text("Line"), Text("Transformer")]),
    Some(["all"]),
    Some(true),
    Some(true))

  /** Gate 1: "shutdown" is decided by the shutdown flag, every other type by the tripping flag. */
  predicate CategoryEnabled(p: Prefs, notificationType: string) {
    (if notificationType == "shutdown" then p.enableShutdownNotifications
     else p.enableTrippingNotifications) == Some(true)
  }

  function Listed<T>(list: Option<seq<T>>): seq<T> {
    if list.Some? then list.value else []
  }

  /** The subscribed thresholds followed by the enabled optional ones not already among them. */
  function VoltageUnion(p: Prefs): (r: seq<Threshold>)
    ensures forall t :: t in r <==> t in Listed(p.subscribedVoltageThresholds) || t in Listed(p.enabledOptionalVoltages)
  {
    AddMissing(Listed(p.subscribedVoltageThresholds), Listed(p.enabledOptionalVoltages))
  }

  /** `extra.forEach(v => { if (!acc.includes(v)) acc.push(v) })`. */
  function AddMissing(acc: seq<Threshold>, extra: seq<Threshold>): (r: seq<Threshold>)
    ensures forall t :: t in r <==> t in acc || t in extra
    decreases |extra|
  {
    if extra == [] then acc
    else AddMissing(if extra[0] in acc then acc else acc + [extra[0]], extra[1..])
  }

  /** `voltageLevel >= Number(threshold || 0)`. */
  predicate Admits(t: Threshold, voltage: nat) {
    match t
    case Number(x) => voltage >= x
    case Falsy => true
    case NotANumber => false
  }

  /** `Array.prototype.some` with the threshold comparison. */
  function SomeAdmits(ts: seq<Threshold>, voltage: nat): bool
    decreases |ts|
  {
    ts != [] && (Admits(ts[0], voltage) || SomeAdmits(ts[1..], voltage))
  }

  /** Gate 2. */
  predicate MeetsVoltageThreshold(p: Prefs, voltage: nat) {
    SomeAdmits(VoltageUnion(p), voltage)
  }

  lemma {:induction false} SomeAdmitsIff(ts: seq<Threshold>, voltage: nat)
    ensures SomeAdmits(ts, voltage) <==> exists t :: t in ts && Admits(t, voltage)
    decreases |ts|
  {
    if ts != [] {
      SomeAdmitsIff(ts[1..], voltage);
      assert ts == [ts[0]] + ts[1..];
    }
  }

  /**
   * The voltage gate passes iff some threshold in either list (each counted only
   * when it is an array) admits the voltage.
   */
  lemma VoltageGateIff(p: Prefs, voltage: nat)
    ensures MeetsVoltageThreshold(p, voltage) <==>
      || (exists t :: t in Listed(p.subscribedVoltageThresholds) && Admits(t, voltage))
      || (exists t :: t in Listed(p.enabledOptionalVoltages) && Admits(t, voltage))
  {
    SomeAdmitsIff(VoltageUnion(p), voltage);
  }

  /** An empty union, or one whose lists are not arrays, excludes every voltage. */
  lemma EmptyUnionExcludes(p: Prefs, voltage: nat)
    requires Listed(p.subscribedVoltageThresholds) == [] && Listed(p.enabledOptionalVoltages) == []
    ensures !MeetsVoltageThreshold(p, voltage)
  {
    VoltageGateIff(p, voltage);
  }

  /** A falsy threshold in either list becomes 0 and admits every voltage. */
  lemma FalsyThresholdAdmitsAll(p: Prefs, voltage: nat)
    requires Falsy in Listed(p.subscribedVoltageThresholds) || Falsy in Listed(p.enabledOptionalVoltages)
    ensures MeetsVoltageThreshold(p, voltage)
  {
    VoltageGateIff(p, voltage);
  }

  /** Raising the voltage never closes the voltage gate. */
  lemma VoltageGateMonotone(p: Prefs, v1: nat, v2: nat)
    requires v1 <= v2 && MeetsVoltageThreshold(p, v1)
    ensures MeetsVoltageThreshold(p, v2)
  {
    VoltageGateIff(p, v1);
    VoltageGateIff(p, v2);
  }

  /** `entries.map(x => x.toLowerCase())`: None when some entry throws. */
  function LowerAll(entries: seq<BayEntry>): (r: Option<seq<string>>)
    ensures r.Some? <==> forall i :: 0 <= i < |entries| ==> entries[i].Text?
    ensures r.Some? ==>
      && |r.value| == |entries|
      && (forall i :: 0 <= i < |entries| ==> r.value[i] == ToLower(entries[i].text))
    decreases |entries|
  {
    if entries == [] then Some([])
    else if entries[0].NonText? then None
    else
      var rest := LowerAll(entries[1..]);
      if rest.None? then None else Some([ToLower(entries[0].text)] + rest.value)
  }

  /**
   * Gate 3 on the lower-cased bay type: Some(pass) or None when lower-casing an
   * entry throws. A missing or non-array list gives an empty list and fails.
   */
  function BayTypeGate(p: Prefs, bayType: string): Option<bool> {
    if p.subscribedBayTypes.None? then Some(false)
    else
      match LowerAll(p.subscribedBayTypes.value)
      case None => None
      case Some(types) => Some("all" in types || bayType in types)
  }

  /**
   * The bay-type gate throws iff the list holds a non-text entry, and otherwise
   * passes iff some entry lower-cases to "all" or to the bay type.
   */
  lemma BayTypeGateIff(p: Prefs, bayType: string)
    ensures BayTypeGate(p, bayType).None? <==> NonText in Listed(p.subscribedBayTypes)
    ensures BayTypeGate(p, bayType) == Some(true) <==>
      && p.subscribedBayTypes.Some?
      && NonText !in p.subscribedBayTypes.value
      && exists e :: e in p.subscribedBayTypes.value && e.Text? && ToLower(e.text) in {"all", bayType}
  {
    if p.subscribedBayTypes.Some? {
      var es := p.subscribedBayTypes.value;
      var r := LowerAll(es);
      if NonText in es {
        var k :| 0 <= k < |es| && es[k] == NonText;
      } else {
        assert forall i :: 0 <= i < |es| ==> es[i].Text?;
        var types := r.value;
        if "all" in types || bayType in types {
          var k :| 0 <= k < |types| && types[k] in {"all", bayType};
          assert es[k] in es;
        }
        if exists e :: e in es && e.Text? && ToLower(e.text) in {"all", bayType} {
          var e :| e in es && e.Text? && ToLower(e.text) in {"all", bayType};
          var k :| 0 <= k < |es| && es[k] == e;
          assert types[k] == ToLower(e.text);
        }
      }
    }
  }

  /** Gate 4: only an array holding neither "all" nor the substation id excludes. */
  predicate SubstationGate(p: Prefs, substationId: string) {
    !(p.subscribedSubstations.Some?
      && "all" !in p.subscribedSubstations.value
      && substationId !in p.subscribedSubstations.value)
  }

  datatype Gate = CategoryGate | VoltageGate | BayGate | SubstationIdGate

  /** Outcome for one candidate: pass, skipped at the first failing gate, or an exception. */
  datatype Verdict = Pass | Skip(gate: Gate) | Fault

  /** The event attributes the gates look at. */
  datatype EventContext = EventContext(notificationType: string, voltage: nat, bayType: string, substationId: string)

  /** The four gates in sequence, stopping at the first that fails. */
  function Evaluate(p: Prefs, ev: EventContext): Verdict {
    if !CategoryEnabled(p, ev.notificationType) then Skip(CategoryGate)
    else if !MeetsVoltageThreshold(p, ev.voltage) then Skip(VoltageGate)
    else match BayTypeGate(p, ev.bayType)
      case None => Fault
      case Some(false) => Skip(BayGate)
      case Some(true) =>
        if !SubstationGate(p, ev.substationId) then Skip(SubstationIdGate) else Pass
  }

  /**
   * A candidate passes iff all four gates pass; a skip names the first gate that
   * fails, all earlier ones having passed; a fault happens only after the first two
   * gates passed, when a bay-type entry is not text.
   */
  lemma EvaluateIff(p: Prefs, ev: EventContext)
    ensures Evaluate(p, ev) == Pass <==>
      && CategoryEnabled(p, ev.notificationType)
      && (exists t :: t in VoltageUnion(p) && Admits(t, ev.voltage))
      && p.subscribedBayTypes.Some? && NonText !in p.subscribedBayTypes.value
      && (exists e :: e in p.subscribedBayTypes.value && e.Text? && ToLower(e.text) in {"all", ev.bayType})
      && SubstationGate(p, ev.substationId)
    ensures Evaluate(p, ev) == Skip(CategoryGate) <==> !CategoryEnabled(p, ev.notificationType)
    ensures Evaluate(p, ev) == Skip(VoltageGate) <==>
      CategoryEnabled(p, ev.notificationType) && forall t :: t in VoltageUnion(p) ==> !Admits(t, ev.voltage)
    ensures Evaluate(p, ev) == Fault <==>
      CategoryEnabled(p, ev.notificationType) && MeetsVoltageThreshold(p, ev.voltage)
      && NonText in Listed(p.subscribedBayTypes)
    ensures Evaluate(p, ev) == Skip(SubstationIdGate) ==>
      BayTypeGate(p, ev.bayType) == Some(true) && !SubstationGate(p, ev.substationId)
  {
    SomeAdmitsIff(VoltageUnion(p), ev.voltage);
    BayTypeGateIff(p, ev.bayType);
  }

  /** A stored record without the flag for the event's category excludes the candidate. */
  lemma MissingFlagExcludes(p: Prefs, ev: EventContext)
    requires ev.notificationType == "shutdown" ==> p.enableShutdownNotifications.None?
    requires ev.notificationType != "shutdown" ==> p.enableTrippingNotifications.None?
    ensures Evaluate(p, ev) == Skip(CategoryGate)
  {
  }

  /**
   * The default record admits an event iff its voltage is at least 132 and its
   * lower-cased bay type is "line" or "transformer", whatever its category and substation.
   */
  lemma DefaultPrefsAdmit(ev: EventContext)
    ensures Evaluate(DefaultPrefs, ev) == Pass <==> ev.voltage >= 132 && ev.bayType in {"line", "transformer"}
  {
    DefaultVoltageUnion();
    DefaultBayTypes();
    assert BayTypeGate(DefaultPrefs, ev.bayType) == Some(ev.bayType in ["line", "transformer"]);
    VoltageGateIff(DefaultPrefs, ev.voltage);
  }

  /** The default record's voltage union: its own four thresholds. */
  lemma DefaultVoltageUnion()
    ensures VoltageUnion(DefaultPrefs) == [Number(132), Number(220), Number(400), Number(765)]
  {
    assert VoltageUnion(DefaultPrefs) == [Number(132), Number(220), Number(400), Number(765)];
  }

  /** The default record's bay types, lower-cased. */
  lemma DefaultBayTypes()
    ensures LowerAll(DefaultPrefs.subscribedBayTypes.value) == Some(["line", "transformer"])
  {
    var r := LowerAll(DefaultPrefs.subscribedBayTypes.value).value;
    assert |r| == 2 && r[0] == ToLower("Line") && r[1] == ToLower("Transformer");
    assert ToLower("Line") == "line" by {
      var l := ToLower("Line");
      assert l[0] == 'l' && l[1] == 'i' && l[2] == 'n' && l[3] == 'e';
    }
    assert ToLower("Transformer") == "transformer" by {
      var l := ToLower("Transformer");
      assert l[0] == 't';
    }
    assert r == ["line", "transformer"];
  }
}
