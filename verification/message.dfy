/**
 * Message building: the event duration text (`calculateEventDuration`), the title
 * and body lines (`formatNotificationMessage`), and the channel, colour, priority
 * and sound chosen for a notification. `formatTime` is a parameter, left
 * uninterpreted.
 */
module Message {
  import opened Wrappers
  import opened Strings
  import opened Events

  const MinuteMs := 60000

  /**
   * `calculateEventDuration` on millisecond times: "" when either is missing, else
   * whole minutes (rounded down) as "<m>m" below an hour and "<h>h <m>m" from an hour on.
   * Dafny's division by a positive constant rounds down, as `Math.floor` does.
   */
  function EventDuration(startTime: Option<Timestamp>, endTime: Option<Timestamp>): (r: string)
    ensures r == "" <==> startTime.None? || endTime.None?
  {
    if startTime.None? || endTime.None? then ""
    else
      var minutes := (endTime.value - startTime.value) / MinuteMs;
      if minutes < 60 then IntToString(minutes) + "m"
      else NatToString(minutes / 60) + "h " + NatToString(minutes % 60) + "m"
  }

  /**
   * For `minutes` the floor of the elapsed time in minutes, the text is "<minutes>m"
   * below 60, and otherwise "<h>h <m>m" for the h and m with h*60 + m == minutes, 0 <= m < 60.
   */
  lemma DurationText(start: Timestamp, end: Timestamp, minutes: int, h: nat, m: nat)
    requires minutes * MinuteMs <= end - start < minutes * MinuteMs + MinuteMs
    ensures minutes < 60 ==> EventDuration(Some(start), Some(end)) == IntToString(minutes) + "m"
    ensures minutes >= 60 && h * 60 + m == minutes && m < 60 ==>
      EventDuration(Some(start), Some(end)) == NatToString(h) + "h " + NatToString(m) + "m"
  {
    FloorMinutes(end - start, minutes);
    if minutes < 60 {
      DurationUnderAnHour(start, end, minutes);
    } else if h * 60 + m == minutes && m < 60 {
      FloorHours(minutes, h, m);
      DurationFromAnHour(start, end, minutes);
    }
  }

  /** Under an hour the text is the minutes and "m". */
  lemma DurationUnderAnHour(start: Timestamp, end: Timestamp, minutes: int)
    requires (end - start) / MinuteMs == minutes < 60
    ensures EventDuration(Some(start), Some(end)) == IntToString(minutes) + "m"
  {
  }

  /** From an hour on the text is the hours, "h ", the leftover minutes and "m". */
  lemma DurationFromAnHour(start: Timestamp, end: Timestamp, minutes: int)
    requires (end - start) / MinuteMs == minutes >= 60
    ensures EventDuration(Some(start), Some(end)) == NatToString(minutes / 60) + "h " + NatToString(minutes % 60) + "m"
  {
  }

  /** The whole minutes of a duration are the quotient that brackets it. */
  lemma FloorMinutes(d: int, q: int)
    requires q * MinuteMs <= d < q * MinuteMs + MinuteMs
    ensures d / MinuteMs == q
  {
  }

  /** Hours and leftover minutes are the quotient and remainder by 60. */
  lemma FloorHours(minutes: int, h: int, m: int)
    requires h * 60 + m == minutes && 0 <= m < 60
    ensures minutes / 60 == h && minutes % 60 == m
  {
  }

  /** Reads a duration text back to minutes: "<m>m" or "<h>h <m>m". */
  function ParseDuration(s: string): Option<int> {
    var j := RunEnd(s, 0);
    if j == 0 || j == |s| then None
    else if s[j] == 'm' && j + 1 == |s| then Some(DigitsValue(s[..j]))
    else if s[j] == 'h' && j + 1 < |s| && s[j + 1] == ' ' then ParseMinutesAfterHours(DigitsValue(s[..j]), s[j + 2..])
    else None
  }

  /** The "<m>m" part after "<h>h ". */
  function ParseMinutesAfterHours(hours: nat, rest: string): Option<int> {
    var k := RunEnd(rest, 0);
    if 0 < k && k + 1 == |rest| && rest[k] == 'm' then Some(60 * hours + DigitsValue(rest[..k])) else None
  }

  lemma ParseMinutesText(ds: string)
    requires ds != [] && AllDigits(ds)
    ensures ParseDuration(ds + "m") == Some(DigitsValue(ds))
  {
    RunEndAfter("", ds, "m");
    assert "" + ds + "m" == ds + "m";
  }

  /** The minutes part "<m>m" after the hours reads back as the total minutes. */
  lemma MinutesAfterHoursText(hours: nat, ms: string)
    requires ms != [] && AllDigits(ms)
    ensures ParseMinutesAfterHours(hours, ms + "m") == Some(60 * hours + DigitsValue(ms))
  {
    RunEndAfter("", ms, "m");
    assert "" + ms + "m" == ms + "m";
  }

  /** Reading "<h>h " + rest reduces to reading the minutes in rest. */
  lemma HoursThen(hs: string, rest: string)
    requires hs != [] && AllDigits(hs)
    ensures ParseDuration(hs + ("h " + rest)) == ParseMinutesAfterHours(DigitsValue(hs), rest)
  {
    var s := hs + ("h " + rest);
    RunEndAfter("", hs, "h " + rest);
    assert "" + hs + ("h " + rest) == s;
    assert s[|hs|] == 'h' && s[|hs| + 1] == ' ';
    assert s[|hs| + 2..] == rest;
  }

  /** The duration text of a non-negative interval reads back as its whole minutes. */
  lemma DurationRoundTrip(start: Timestamp, end: Timestamp)
    requires start <= end
    ensures ParseDuration(EventDuration(Some(start), Some(end))) == Some((end - start) / MinuteMs)
  {
    var minutes := (end - start) / MinuteMs;
    var text := EventDuration(Some(start), Some(end));
    var x := ParseDuration(text);
    if minutes < 60 {
      assert text == NatToString(minutes) + "m" by {
        DurationUnderAnHour(start, end, minutes);
      }
      ParseMinutesText(NatToString(minutes));
    } else {
      var hs, ms := NatToString(minutes / 60), NatToString(minutes % 60);
      assert text == hs + ("h " + (ms + "m")) by {
        DurationFromAnHour(start, end, minutes);
      }
      HoursThen(hs, ms + "m");
      MinutesAfterHoursText(minutes / 60, ms);
    }
    assert x.Some? && x.value == minutes;
  }

  /** `getNotificationColor`. */
  function NotificationColor(eventType: string, status: Status): string {
    if status == Closed then "#00C851"
    else if eventType == "Tripping" then "#FF3547" else "#FF8800"
  }

  /** `getNotificationChannel`. */
  function NotificationChannel(eventType: string, status: Status): string {
    if status == Closed then "status_update"
    else if eventType == "Tripping" then "emergency" else "maintenance"
  }

  /** Colour of each channel: green for status updates, red for emergencies, orange for maintenance. */
  function ChannelColor(channel: string): string {
    match channel
    case "status_update" => "#00C851"
    case "emergency" => "#FF3547"
    case _ => "#FF8800"
  }

  /** The colour always agrees with the channel. */
  lemma ColorFollowsChannel(eventType: string, status: Status)
    ensures NotificationColor(eventType, status) == ChannelColor(NotificationChannel(eventType, status))
  {
  }

  /** Android priority: "high" for Tripping, "normal" otherwise. */
  function AndroidPriority(eventType: string): string {
    if eventType == "Tripping" then "high" else "normal"
  }

  /** Android and APNs sound: "alert.wav" for Tripping, "default" otherwise. */
  function NotificationSound(eventType: string): string {
    if eventType == "Tripping" then "alert.wav" else "default"
  }

  /**
   * A closed event goes to the status-update channel in green; an open Tripping to the
   * emergency channel in red; any other open event to the maintenance channel in orange.
   */
  lemma ChannelAndColorByEvent(eventType: string, status: Status)
    ensures NotificationChannel(eventType, status) == "status_update" <==> status == Closed
    ensures NotificationChannel(eventType, status) == "emergency" <==> status == Open && eventType == "Tripping"
    ensures NotificationChannel(eventType, status) == "maintenance" <==> status == Open && eventType != "Tripping"
    ensures NotificationColor(eventType, status) == "#00C851" <==> status == Closed
    ensures NotificationColor(eventType, status) == "#FF3547" <==> status == Open && eventType == "Tripping"
    ensures NotificationColor(eventType, status) == "#FF8800" <==> status == Open && eventType != "Tripping"
  {
  }

  /**
   * Priority is "high" exactly for a Tripping and "normal" otherwise; the sound is
   * "alert.wav" or "default"; high priority, the alert sound and, for open events, the
   * emergency channel go together.
   */
  lemma PrioritySoundChannelAgree(eventType: string)
    ensures AndroidPriority(eventType) == "high" <==> eventType == "Tripping"
    ensures AndroidPriority(eventType) in {"high", "normal"}
    ensures NotificationSound(eventType) in {"alert.wav", "default"}
    ensures AndroidPriority(eventType) == "high" <==> NotificationSound(eventType) == "alert.wav"
    ensures AndroidPriority(eventType) == "high" <==> NotificationChannel(eventType, Open) == "emergency"
  {
  }

  /** `value || fallback` for an optional text. */
  function OrElse(value: Option<string>, fallback: string): string {
    if value.Some? && value.value != "" then value.value else fallback
  }

  predicate Truthy(value: Option<string>) {
    value.Some? && value.value != ""
  }

  /** A template literal's rendering of an optional text: `undefined` when absent. */
  function Render(value: Option<string>): string {
    if value.Some? then value.value else "undefined"
  }

  predicate DistanceTruthy(d: Option<Distance>) {
    match d
    case None => false
    case Some(DistanceText(t)) => t != ""
    case Some(DistanceNumber(n)) => n != 0
  }

  function DistanceString(d: Distance): string {
    match d
    case DistanceText(t) => t
    case DistanceNumber(n) => IntToString(n)
  }

  /** The trimmed cause, when it is not blank. */
  function Cause(ev: EventRecord): Option<string> {
    if ev.flagsCause.Some? && Trim(ev.flagsCause.value) != "" then Some(Trim(ev.flagsCause.value)) else None
  }

  datatype LineKind =
    | SubstationLine | TimeLine | FlagLine | CauseLine | PersonLine | DesignationLine
    | DurationLine | PhasesLine | DistanceLine | AutoRecloseLine

  /** Whether a line of this kind is part of the body. */
  predicate Shown(k: LineKind, ev: EventRecord) {
    match k
    case SubstationLine => true
    case TimeLine => true
    case FlagLine => true
    case CauseLine => Cause(ev).Some?
    case PersonLine => ev.eventType == "Shutdown" && Truthy(ev.shutdownPersonName)
    case DesignationLine => ev.eventType == "Shutdown" && Truthy(ev.shutdownPersonDesignation)
    case DurationLine => EventDuration(ev.startTime, ev.endTime) != ""
    case PhasesLine => ev.eventType == "Tripping" && ev.phaseFaults.Some? && |ev.phaseFaults.value| > 0
    case DistanceLine => ev.eventType == "Tripping" && DistanceTruthy(ev.distance)
    case AutoRecloseLine => ev.eventType == "Tripping" && ev.hasAutoReclose == Some(true)
  }

  /** The label of the start time of an open event. */
  function TimeLabel(eventType: string): string {
    if eventType == "Tripping" then "Trip Time" else "Start Time"
  }

  /** The text of a body line of this kind. */
  function LineText(k: LineKind, ev: EventRecord, status: Status, formatTime: Option<Timestamp> -> string): string {
    match k
    case SubstationLine => "\U{1F4CD} Substation: " + OrElse(ev.substationName, "Unknown Substation")
    case TimeLine =>
      if status == Closed then "\U{1F550} Close Time: " + formatTime(ev.endTime)
      else "\U{1F550} " + TimeLabel(ev.eventType) + ": " + formatTime(ev.startTime)
    case FlagLine => "\U{1F6A9} Flag: " + OrElse(ev.reasonForNonFeeder, "N/A")
    case CauseLine => "\U{2757} Cause: " + Cause(ev).GetOr("")
    case PersonLine => "\U{1F464} Person: " + Render(ev.shutdownPersonName)
    case DesignationLine => "\U{1F4BC} Designation: " + Render(ev.shutdownPersonDesignation)
    case DurationLine => "\U{23F1}\U{FE0F} Duration: " + EventDuration(ev.startTime, ev.endTime)
    case PhasesLine => "\U{26A1} Phases: " + Join(ev.phaseFaults.GetOr([]), ", ")
    case DistanceLine =>
      "\U{1F4CF} Distance: " + (if ev.distance.Some? then DistanceString(ev.distance.value) else "") + " km"
    case AutoRecloseLine => "\U{1F504} Auto-reclose: Yes"
  }

  /** The line of this kind, when the event shows it. */
  function LineIf(k: LineKind, ev: EventRecord, status: Status, formatTime: Option<Timestamp> -> string): (r: seq<string>)
    ensures |r| <= 1
  {
    if Shown(k, ev) then [LineText(k, ev, status, formatTime)] else []
  }

  /** The lines every body starts with: substation, time, flag and the cause when there is one. */
  function HeadLines(ev: EventRecord, status: Status, formatTime: Option<Timestamp> -> string): seq<string> {
    LineIf(SubstationLine, ev, status, formatTime) + LineIf(TimeLine, ev, status, formatTime)
      + LineIf(FlagLine, ev, status, formatTime) + LineIf(CauseLine, ev, status, formatTime)
  }

  /** The person and designation lines of a shutdown. */
  function PersonLines(ev: EventRecord, status: Status, formatTime: Option<Timestamp> -> string): seq<string> {
    LineIf(PersonLine, ev, status, formatTime) + LineIf(DesignationLine, ev, status, formatTime)
  }

  /** The phases, distance and auto-reclose lines of a tripping. */
  function TrippingLines(ev: EventRecord, status: Status, formatTime: Option<Timestamp> -> string): seq<string> {
    LineIf(PhasesLine, ev, status, formatTime) + LineIf(DistanceLine, ev, status, formatTime)
      + LineIf(AutoRecloseLine, ev, status, formatTime)
  }

  /** The duration closing a closed event's body, the tripping details closing an open event's. */
  function TailLines(ev: EventRecord, status: Status, formatTime: Option<Timestamp> -> string): seq<string> {
    if status == Closed then LineIf(DurationLine, ev, status, formatTime)
    else TrippingLines(ev, status, formatTime)
  }

  /** The body lines of a notification: the shown lines, in a fixed order. */
  function BodyLines(ev: EventRecord, status: Status, formatTime: Option<Timestamp> -> string): seq<string> {
    HeadLines(ev, status, formatTime) + PersonLines(ev, status, formatTime) + TailLines(ev, status, formatTime)
  }

  /** The title: a restored notice when closed, the type's symbol and name when open. */
  function Title(ev: EventRecord, bay: Bay, status: Status): string {
    if status == Closed then "\U{2705} " + ev.eventType + " Restored: " + Render(bay.name)
    else (if ev.eventType == "Tripping" then "\U{26A1}" else "\U{1F50C}") + " " + ev.eventType + ": " + Render(bay.name)
  }

  /**
   * A title starts with the restored mark when closed, otherwise with the lightning mark
   * exactly for a Tripping and the plug otherwise; the event type follows after one space,
   * and the title ends with ": " and the bay's name.
   */
  lemma TitleShape(ev: EventRecord, bay: Bay, status: Status)
    ensures var t := Title(ev, bay, status);
      && |t| >= 2 + |ev.eventType| + 2 + |Render(bay.name)|
      && t[0] == (if status == Closed then '\U{2705}' else if ev.eventType == "Tripping" then '\U{26A1}' else '\U{1F50C}')
      && t[1] == ' '
      && t[2..2 + |ev.eventType|] == ev.eventType
      && t[|t| - |Render(bay.name)| - 2..] == ": " + Render(bay.name)
  {
    var t := Title(ev, bay, status);
    var name := Render(bay.name);
    var mark := if status == Closed then "\U{2705}" else if ev.eventType == "Tripping" then "\U{26A1}" else "\U{1F50C}";
    var middle := if status == Closed then " Restored" else "";
    assert t == (mark + " ") + ev.eventType + middle + (": " + name);
    PartsOfConcat(mark + " ", ev.eventType, middle, ": " + name);
  }

  /** The symbol each body line starts with; no two kinds share one. */
  function Marker(k: LineKind): char {
    match k
    case SubstationLine => '\U{1F4CD}'
    case TimeLine => '\U{1F550}'
    case FlagLine => '\U{1F6A9}'
    case CauseLine => '\U{2757}'
    case PersonLine => '\U{1F464}'
    case DesignationLine => '\U{1F4BC}'
    case DurationLine => '\U{23F1}'
    case PhasesLine => '\U{26A1}'
    case DistanceLine => '\U{1F4CF}'
    case AutoRecloseLine => '\U{1F504}'
  }

  lemma LineStartsWithMarker(k: LineKind, ev: EventRecord, status: Status, formatTime: Option<Timestamp> -> string)
    ensures |LineText(k, ev, status, formatTime)| > 0 && LineText(k, ev, status, formatTime)[0] == Marker(k)
  {
  }

  /**
   * `formatNotificationMessage`: push the lines one by one, under the same conditions
   * as the source, then join them with "\n".
   */
  method FormatNotificationMessage(ev: EventRecord, bay: Bay, status: Status, formatTime: Option<Timestamp> -> string)
    returns (title: string, body: string)
    ensures title == Title(ev, bay, status)
    ensures body == Join(BodyLines(ev, status, formatTime), "\n")
  {
    var assetName := Render(bay.name);
    var bodyLines: seq<string> := [];
    bodyLines := bodyLines + [LineText(SubstationLine, ev, status, formatTime)];
    bodyLines := bodyLines + [LineText(TimeLine, ev, status, formatTime)];
    bodyLines := bodyLines + [LineText(FlagLine, ev, status, formatTime)];
    if Cause(ev).Some? {
      bodyLines := bodyLines + [LineText(CauseLine, ev, status, formatTime)];
    }
    assert bodyLines == HeadLines(ev, status, formatTime);
    bodyLines := AppendPersonLines(ev, status, formatTime, bodyLines);
    bodyLines := AppendTailLines(ev, status, formatTime, bodyLines);
    body := Join(bodyLines, "\n");
    if status == Closed {
      title := "\U{2705} " + ev.eventType + " Restored: " + assetName;
    } else {
      var emoji := if ev.eventType == "Tripping" then "\U{26A1}" else "\U{1F50C}";
      title := emoji + " " + ev.eventType + ": " + assetName;
    }
  }

  /** The shutdown branch of the body: person and designation, when given. */
  method AppendPersonLines(ev: EventRecord, status: Status, formatTime: Option<Timestamp> -> string, lines: seq<string>)
    returns (r: seq<string>)
    ensures r == lines + PersonLines(ev, status, formatTime)
  {
    r := lines;
    if ev.eventType == "Shutdown" {
      if Truthy(ev.shutdownPersonName) {
        r := r + [LineText(PersonLine, ev, status, formatTime)];
      }
      if Truthy(ev.shutdownPersonDesignation) {
        r := r + [LineText(DesignationLine, ev, status, formatTime)];
      }
    }
  }

  /** The end of the body: the duration when closed, the tripping details when open. */
  method AppendTailLines(ev: EventRecord, status: Status, formatTime: Option<Timestamp> -> string, lines: seq<string>)
    returns (r: seq<string>)
    ensures r == lines + TailLines(ev, status, formatTime)
  {
    r := lines;
    if status == Closed {
      if EventDuration(ev.startTime, ev.endTime) != "" {
        r := r + [LineText(DurationLine, ev, status, formatTime)];
      }
    } else {
      r := AppendTrippingLines(ev, status, formatTime, r);
    }
  }

  /** The tripping details of an open event's body. */
  method AppendTrippingLines(ev: EventRecord, status: Status, formatTime: Option<Timestamp> -> string, lines: seq<string>)
    returns (r: seq<string>)
    ensures r == lines + TrippingLines(ev, status, formatTime)
  {
    r := lines;
    if ev.eventType == "Tripping" && ev.phaseFaults.Some? && |ev.phaseFaults.value| > 0 {
      r := r + [LineText(PhasesLine, ev, status, formatTime)];
    }
    if ev.eventType == "Tripping" && DistanceTruthy(ev.distance) {
      r := r + [LineText(DistanceLine, ev, status, formatTime)];
    }
    if ev.eventType == "Tripping" && ev.hasAutoReclose == Some(true) {
      r := r + [LineText(AutoRecloseLine, ev, status, formatTime)];
    }
  }

  /**
   * Every body starts with the substation, time and flag lines and has at most 7 lines:
   * a Tripping at most 5 when closed and 7 when open, a Shutdown at most 7 when closed
   * and 6 when open.
   */
  lemma BodyLinesShape(ev: EventRecord, status: Status, formatTime: Option<Timestamp> -> string)
    ensures var lines := BodyLines(ev, status, formatTime);
      && |lines| >= 3
      && lines[0] == LineText(SubstationLine, ev, status, formatTime)
      && lines[1] == LineText(TimeLine, ev, status, formatTime)
      && lines[2] == LineText(FlagLine, ev, status, formatTime)
      && |lines| <= 7
      && (ev.eventType == "Tripping" ==> |lines| <= (if status == Closed then 5 else 7))
      && (ev.eventType == "Shutdown" ==> |lines| <= (if status == Closed then 7 else 6))
  {
    HeadLinesShape(ev, status, formatTime);
    PersonLinesShape(ev, status, formatTime);
    TrippingLinesShape(ev, status, formatTime);
  }

  /** The head is the substation, time and flag lines, then at most the cause. */
  lemma HeadLinesShape(ev: EventRecord, status: Status, formatTime: Option<Timestamp> -> string)
    ensures var head := HeadLines(ev, status, formatTime);
      && 3 <= |head| <= 4
      && head[0] == LineText(SubstationLine, ev, status, formatTime)
      && head[1] == LineText(TimeLine, ev, status, formatTime)
      && head[2] == LineText(FlagLine, ev, status, formatTime)
  {
    ThreeThenOptional(LineIf(SubstationLine, ev, status, formatTime), LineIf(TimeLine, ev, status, formatTime),
                      LineIf(FlagLine, ev, status, formatTime), LineIf(CauseLine, ev, status, formatTime));
  }

  /** Three single lines followed by at most one more: the three lead, in order. */
  lemma ThreeThenOptional(a: seq<string>, b: seq<string>, c: seq<string>, d: seq<string>)
    requires |a| == 1 && |b| == 1 && |c| == 1 && |d| <= 1
    ensures var h := a + b + c + d;
      3 <= |h| <= 4 && h[0] == a[0] && h[1] == b[0] && h[2] == c[0]
  {
  }

  /** Only a shutdown has person lines, and at most two. */
  lemma PersonLinesShape(ev: EventRecord, status: Status, formatTime: Option<Timestamp> -> string)
    ensures |PersonLines(ev, status, formatTime)| <= 2
    ensures ev.eventType != "Shutdown" ==> PersonLines(ev, status, formatTime) == []
  {
    if ev.eventType != "Shutdown" {
      assert !Shown(PersonLine, ev) && !Shown(DesignationLine, ev);
    }
  }

  /** Only a tripping has tripping lines, at most three; the tail is at most the duration when closed. */
  lemma TrippingLinesShape(ev: EventRecord, status: Status, formatTime: Option<Timestamp> -> string)
    ensures |TrippingLines(ev, status, formatTime)| <= 3
    ensures ev.eventType != "Tripping" ==> TrippingLines(ev, status, formatTime) == []
    ensures |TailLines(ev, status, formatTime)| <= (if status == Closed then 1 else |TrippingLines(ev, status, formatTime)|)
  {
    if ev.eventType != "Tripping" {
      assert !Shown(PhasesLine, ev) && !Shown(DistanceLine, ev) && !Shown(AutoRecloseLine, ev);
    }
  }

  /** The cause line is in the body iff the trimmed cause is not blank. */
  lemma CauseLineIff(ev: EventRecord, status: Status, formatTime: Option<Timestamp> -> string)
    ensures LineText(CauseLine, ev, status, formatTime) in BodyLines(ev, status, formatTime) <==> Cause(ev).Some?
  {
    var cause := LineText(CauseLine, ev, status, formatTime);
    if Cause(ev).None? {
      forall k | k != CauseLine
        ensures cause !in LineIf(k, ev, status, formatTime)
      {
        OtherLineIsNotCause(k, ev, status, formatTime);
      }
      assert LineIf(CauseLine, ev, status, formatTime) == [];
      assert cause !in HeadLines(ev, status, formatTime);
      assert cause !in PersonLines(ev, status, formatTime);
      assert cause !in TailLines(ev, status, formatTime);
    } else {
      assert LineIf(CauseLine, ev, status, formatTime) == [cause];
      assert cause in HeadLines(ev, status, formatTime);
    }
  }

  /** A line of another kind never equals the cause line, as it starts with another symbol. */
  lemma OtherLineIsNotCause(k: LineKind, ev: EventRecord, status: Status, formatTime: Option<Timestamp> -> string)
    requires k != CauseLine
    ensures LineText(CauseLine, ev, status, formatTime) !in LineIf(k, ev, status, formatTime)
  {
    LineStartsWithMarker(k, ev, status, formatTime);
    LineStartsWithMarker(CauseLine, ev, status, formatTime);
  }

  /** When no shown line contains a line break, splitting the body on "\n" gives back its lines. */
  lemma BodySplitsIntoLines(ev: EventRecord, status: Status, formatTime: Option<Timestamp> -> string)
    requires forall l :: l in BodyLines(ev, status, formatTime) ==> '\n' !in l
    ensures Split(Join(BodyLines(ev, status, formatTime), "\n"), '\n') == BodyLines(ev, status, formatTime)
  {
    var lines := BodyLines(ev, status, formatTime);
    BodyLinesShape(ev, status, formatTime);
    assert forall i :: 0 <= i < |lines| ==> lines[i] in lines;
    SplitJoin(lines, '\n');
  }
}
