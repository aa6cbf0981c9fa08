/**
 * Creating a session (app/dashboard/sessions/actions.ts): the guards, the
 * derivation of the session's end time from its template, and the inserted row.
 *
 * Times are `HH:MM` strings. The authentication outcome, the template lookup
 * and the insert outcome are inputs.
 */
module SessionActions {
  import opened Wrappers
  import opened JsStrings
  import opened JsValues

  /** The columns of the template row the session is derived from. */
  datatype SessionTemplate = SessionTemplate(
    orgId: string,
    startTime: Option<string>,
    endTime: Option<string>,
    ticketFormat: string,
    timeSlotsConfig: Value)

  /** `SessionData`, the form's input. */
  datatype SessionData = SessionData(templateId: string, sessionDate: string, startTime: string, status: string)

  /** The row inserted into `sessions`; `endTime == None` is `null`. */
  datatype SessionRow = SessionRow(
    orgId: string,
    templateId: string,
    sessionDate: string,
    startTime: string,
    endTime: Option<string>,
    status: string)

  /** `toMinutes`: hours and minutes from the first two `:`-separated parts; `None` is `NaN`. */
  function ToMinutes(time: string): (r: Option<int>)
  {
    PartsToMinutes(Split(time, ':'))
  }

  /** `const [h, m] = parts.map(Number); return h * 60 + m`: a missing minute part is `NaN`. */
  function PartsToMinutes(parts: seq<string>): (r: Option<int>)
    requires |parts| >= 1
    ensures |parts| < 2 ==> r == None
  {
    var h := StringToNumber(parts[0]);
    var m := if |parts| >= 2 then StringToNumber(parts[1]) else None;
    if h.Some? && m.Some? then Some(h.value * 60 + m.value) else None
  }

  /** `toTimeStr`: the hour of the day (wrapped to 24) and the minute, each padded to two places. */
  function ToTimeStr(minutes: int): (r: string)
    ensures |r| >= 5
  {
    Clock(Rem(minutes / 60, 24), Rem(minutes, 60))
  }

  /** The `HH:MM` template literal of `toTimeStr`. */
  function Clock(h: int, m: int): (r: string)
    ensures |r| >= 5
  {
    PadTwo(IntToString(h)) + ":" + PadTwo(IntToString(m))
  }

  /** What `toTimeStr` gives for a `NaN` input. */
  const NaNTime: string := "NaN:NaN"

  /** A well-formed `HH:MM` time of day. */
  predicate ValidTime(t: string) {
    && |t| == 5 && t[2] == ':'
    && IsDigit(t[0]) && IsDigit(t[1]) && IsDigit(t[3]) && IsDigit(t[4])
    && DigitsValue(t[..2]) < 24 && DigitsValue(t[3..]) < 60
  }

  /** The minute of the day a valid `HH:MM` denotes. */
  function MinuteOfDay(t: string): (n: nat)
    requires ValidTime(t)
    ensures n < 1440
  {
    DigitsValue(t[..2]) * 60 + DigitsValue(t[3..])
  }

  /** `t` is a valid `HH:MM` reading as hour `h` and minute `m`. */
  predicate ShowsTime(t: string, h: nat, m: nat) {
    ValidTime(t) && DigitsValue(t[..2]) == h && DigitsValue(t[3..]) == m
  }

  /** Hours 0..23 and minutes 0..59 render as the two-digit `HH:MM` that reads back as them. */
  lemma {:induction false} ClockOfTimeOfDay(h: nat, m: nat)
    requires h < 24 && m < 60
    ensures ShowsTime(Clock(h, m), h, m)
  {
    PadTwoValue(h);
    PadTwoValue(m);
    var r := Clock(h, m);
    var hs, ms := PadTwo(NatToString(h)), PadTwo(NatToString(m));
    assert r == hs + ":" + ms;
    assert r[..2] == hs && r[3..] == ms;
  }

  lemma DivMod60(n: int, q: int, m: int)
    requires n == q * 60 + m && 0 <= m < 60
    ensures n / 60 == q && n % 60 == m
  {
  }

  /** The minute of the day a count of minutes falls on, as `toTimeStr` splits it. */
  lemma MinuteOfDayArith(n: nat)
    ensures ((n / 60) % 24) * 60 + n % 60 == n % 1440
  {
    var q, r := n / 60, n % 60;
    var d, h := q / 24, q % 24;
    assert n == 1440 * d + (60 * h + r);
  }

  /** For a non-negative count, `toTimeStr` yields the `HH:MM` of the minute of the day it falls on. */
  lemma {:induction false} ToTimeStrOfNat(n: nat)
    ensures ValidTime(ToTimeStr(n))
    ensures MinuteOfDay(ToTimeStr(n)) == n % 1440
  {
    var h, m := (n / 60) % 24, n % 60;
    assert ToTimeStr(n) == Clock(h, m);
    ClockOfTimeOfDay(h, m);
    MinuteOfDayArith(n);
  }

  /** `toTimeStr` wraps past 24 hours. */
  lemma ToTimeStrWraps(n: nat)
    ensures ToTimeStr(n + 1440) == ToTimeStr(n)
  {
    DivMod60(n + 1440, n / 60 + 24, n % 60);
    assert (n / 60 + 24) % 24 == (n / 60) % 24;
  }

  /** Splitting a valid `HH:MM` on `:` gives its hour and minute parts. */
  lemma SplitValidTime(t: string)
    requires ValidTime(t)
    ensures t == t[..2] + [':'] + t[3..]
    ensures Split(t, ':') == [t[..2], t[3..]]
  {
    assert t == t[..2] + [':'] + t[3..];
    SplitTwo(t[..2], t[3..], ':');
  }

  /** A two-digit string converts to the number it denotes. */
  lemma TwoDigitsNumber(s: string)
    requires |s| == 2 && IsDigit(s[0]) && IsDigit(s[1])
    ensures StringToNumber(s) == Some(DigitsValue(s))
  {
    DigitsToNumber(s);
  }

  lemma ToMinutesOfSplit(t: string, x: string, y: string)
    requires Split(t, ':') == [x, y]
    ensures ToMinutes(t) == PartsToMinutes([x, y])
  {
  }

  lemma PartsOfNumbers(x: string, y: string, a: int, b: int)
    requires StringToNumber(x) == Some(a) && StringToNumber(y) == Some(b)
    ensures PartsToMinutes([x, y]) == Some(a * 60 + b)
  {
  }

  /** Two-digit hour and minute parts convert to hours × 60 + minutes. */
  lemma PartsOfTwoDigits(x: string, y: string)
    requires |x| == 2 && IsDigit(x[0]) && IsDigit(x[1])
    requires |y| == 2 && IsDigit(y[0]) && IsDigit(y[1])
    ensures PartsToMinutes([x, y]) == Some(DigitsValue(x) * 60 + DigitsValue(y))
  {
    var a, b := DigitsValue(x), DigitsValue(y);
    TwoDigitsNumber(x);
    TwoDigitsNumber(y);
    PartsOfNumbers(x, y, a, b);
  }

  /** A valid `HH:MM` converts to its minute of the day. */
  lemma {:induction false} ToMinutesOfValid(t: string)
    requires ValidTime(t)
    ensures ToMinutes(t) == Some(MinuteOfDay(t))
  {
    SplitValidTime(t);
    ToMinutesOfSplit(t, t[..2], t[3..]);
    PartsOfTwoDigits(t[..2], t[3..]);
  }

  /** Within a day, `toTimeStr` renders the hour and minute as they are. */
  lemma ToTimeStrOfDay(h: nat, m: nat, n: int)
    requires h < 24 && m < 60 && n == h * 60 + m
    ensures ToTimeStr(n) == Clock(h, m)
  {
    HourAndMinute(h, m);
    ToTimeStrIsClock(n, h, m);
  }

  lemma HourAndMinute(h: nat, m: nat)
    requires h < 24 && m < 60
    ensures Rem((h * 60 + m) / 60, 24) == h && Rem(h * 60 + m, 60) == m
  {
    DivMod60(h * 60 + m, h, m);
  }

  lemma ToTimeStrIsClock(n: int, h: int, m: int)
    requires Rem(n / 60, 24) == h && Rem(n, 60) == m
    ensures ToTimeStr(n) == Clock(h, m)
  {
  }

  /** A valid `HH:MM` is the rendering of its own hour and minute. */
  lemma {:induction false} ClockOfValid(t: string)
    requires ValidTime(t)
    ensures Clock(DigitsValue(t[..2]), DigitsValue(t[3..])) == t
  {
    assert [t[0], t[1]] == t[..2] && [t[3], t[4]] == t[3..];
    TwoDigitsRoundTrip(t[0], t[1]);
    TwoDigitsRoundTrip(t[3], t[4]);
    assert t == t[..2] + ":" + t[3..];
  }

  /** A valid `HH:MM` converts to its minute of the day, and converts back to itself. */
  lemma {:induction false} TimeRoundTrip(t: string)
    requires ValidTime(t)
    ensures ToMinutes(t) == Some(MinuteOfDay(t))
    ensures ToTimeStr(MinuteOfDay(t)) == t
  {
    ToMinutesOfValid(t);
    ClockRoundTrip(t);
  }

  /** A valid `HH:MM` is what `toTimeStr` renders for its minute of the day. */
  lemma {:induction false} ClockRoundTrip(t: string)
    requires ValidTime(t)
    ensures ToTimeStr(MinuteOfDay(t)) == t
  {
    var h, m := DigitsValue(t[..2]), DigitsValue(t[3..]);
    ClockOfValid(t);
    ToTimeStrOfDay(h, m, MinuteOfDay(t));
  }

  /** A minute of the day converts to `HH:MM` and back to itself. */
  lemma {:induction false} MinutesRoundTrip(n: int)
    requires 0 <= n < 1440
    ensures ValidTime(ToTimeStr(n))
    ensures ToMinutes(ToTimeStr(n)) == Some(n)
  {
    ToTimeStrOfNat(n);
    ToMinutesOfMinute(ToTimeStr(n), n);
  }

  lemma ToMinutesOfMinute(t: string, n: int)
    requires ValidTime(t) && MinuteOfDay(t) == n
    ensures ToMinutes(t) == Some(n)
  {
    ToMinutesOfValid(t);
  }

  /**
   * The template's duration in minutes; `None` is `NaN`. A `TimeAllotted`
   * template with a configuration lasts `slot_duration × total_slots`;
   * otherwise a template with both times lasts from start to end; otherwise 0.
   */
  function Duration(tpl: SessionTemplate): Option<int> {
    if tpl.ticketFormat == "TimeAllotted" && Truthy(tpl.timeSlotsConfig) then
      var config := tpl.timeSlotsConfig;
      Some(NumberOrZero(Prop(config, "slot_duration")) * NumberOrZero(Prop(config, "total_slots")))
    else if Present(tpl.startTime) && Present(tpl.endTime) then
      var e, s := ToMinutes(tpl.endTime.value), ToMinutes(tpl.startTime.value);
      if e.Some? && s.Some? then Some(e.value - s.value) else None
    else Some(0)
  }

  /**
   * A `TimeAllotted` template with a configuration object lasts
   * `slot_duration × total_slots`, a missing or non-numeric factor counting as 0.
   */
  lemma DurationOfSlots(tpl: SessionTemplate)
    requires tpl.ticketFormat == "TimeAllotted" && tpl.timeSlotsConfig.Obj?
    ensures var f := tpl.timeSlotsConfig.fields;
      Duration(tpl) == Some(NumberOrZero(Get(f, "slot_duration")) * NumberOrZero(Get(f, "total_slots")))
    ensures ToNumber(Get(tpl.timeSlotsConfig.fields, "slot_duration")).None? ==> Duration(tpl) == Some(0)
  {
  }

  /** Any other template with valid start and end times lasts from start to end, which may be negative. */
  lemma {:induction false} DurationOfTimes(tpl: SessionTemplate, start: string, end: string)
    requires tpl.ticketFormat != "TimeAllotted"
    requires tpl.startTime == Some(start) && tpl.endTime == Some(end) && ValidTime(start) && ValidTime(end)
    ensures Duration(tpl) == Some(MinuteOfDay(end) - MinuteOfDay(start))
  {
    var s, e := MinuteOfDay(start), MinuteOfDay(end);
    assert ToMinutes(start) == Some(s) by { ToMinutesOfValid(start); }
    assert ToMinutes(end) == Some(e) by { ToMinutesOfValid(end); }
    DurationOfMinutes(tpl, start, end, s, e);
  }

  lemma DurationOfMinutes(tpl: SessionTemplate, start: string, end: string, s: int, e: int)
    requires tpl.ticketFormat != "TimeAllotted" && tpl.startTime == Some(start) && tpl.endTime == Some(end)
    requires start != "" && end != "" && ToMinutes(start) == Some(s) && ToMinutes(end) == Some(e)
    ensures Duration(tpl) == Some(e - s)
  {
  }

  /** Any other template missing a start or end time lasts 0 minutes. */
  lemma DurationWithoutTimes(tpl: SessionTemplate)
    requires tpl.ticketFormat != "TimeAllotted" && !(Present(tpl.startTime) && Present(tpl.endTime))
    ensures Duration(tpl) == Some(0)
  {
  }

  /** `toTimeStr(toMinutes(start) + duration)`: `NaN:NaN` when the start time is not a number. */
  function EndTimeAfter(startMinutes: Option<int>, duration: int): string {
    match startMinutes
    case Some(s) => ToTimeStr(s + duration)
    case None => NaNTime
  }

  /**
   * `createSession`: `userId` and `token` are what authentication gave
   * (`None` or empty when absent), `templateLookup` the template query
   * (`Err` for an error or no row) and `insertError` the insert's error
   * message, if any. The result is the inserted row, or the thrown error.
   */
  method CreateSession(data: SessionData, userId: Option<string>, token: Option<string>,
                       templateLookup: Result<SessionTemplate>, insertError: Option<string>)
    returns (r: Result<SessionRow>)
    ensures !Present(userId) ==> r == Err("Unauthorized")
    ensures Present(userId) && !Present(token) ==> r == Err("No Supabase token found")
    ensures Present(userId) && Present(token) && templateLookup.Err? ==>
      r == Err("Template not found or access denied.")
    ensures Present(userId) && Present(token) && templateLookup.Ok? && insertError.Some? ==>
      r == Err("Failed to create session: " + insertError.value)
    ensures r.Ok? <==> Present(userId) && Present(token) && templateLookup.Ok? && insertError.None?
    ensures r.Ok? ==> var tpl, row := templateLookup.value, r.value;
      && row.orgId == tpl.orgId && row.templateId == data.templateId
      && row.sessionDate == data.sessionDate && row.startTime == data.startTime && row.status == data.status
      // no start time: no end time
      && (data.startTime == "" ==> row.endTime == None)
      // a positive duration is added to the start time
      && (data.startTime != "" && Duration(tpl).Some? && Duration(tpl).value > 0 ==>
            row.endTime == Some(EndTimeAfter(ToMinutes(data.startTime), Duration(tpl).value)))
      // otherwise the template's end time, verbatim, if it has one
      && (data.startTime != "" && !(Duration(tpl).Some? && Duration(tpl).value > 0) ==>
            row.endTime == if Present(tpl.endTime) then tpl.endTime else None)
  {
    if !Present(userId) {
      return Err("Unauthorized");
    }
    if !Present(token) {
      return Err("No Supabase token found");
    }
    if templateLookup.Err? {
      return Err("Template not found or access denied.");
    }
    var template := templateLookup.value;

    var sessionEndTime: Option<string> := None;
    if data.startTime != "" {
      var duration: Option<int> := Some(0);
      if template.ticketFormat == "TimeAllotted" && Truthy(template.timeSlotsConfig) {
        var config := template.timeSlotsConfig;
        duration := Some(NumberOrZero(Prop(config, "slot_duration")) * NumberOrZero(Prop(config, "total_slots")));
      } else if Present(template.startTime) && Present(template.endTime) {
        var e, s := ToMinutes(template.endTime.value), ToMinutes(template.startTime.value);
        duration := if e.Some? && s.Some? then Some(e.value - s.value) else None;
      }
      assert duration == Duration(template);

      if duration.Some? && duration.value > 0 {
        var startMinutes := ToMinutes(data.startTime);
        sessionEndTime := Some(EndTimeAfter(startMinutes, duration.value));
      } else if Present(template.endTime) {
        sessionEndTime := template.endTime;
      }
    }

    var payload := SessionRow(template.orgId, data.templateId, data.sessionDate, data.startTime,
                              sessionEndTime, data.status);
    if insertError.Some? {
      return Err("Failed to create session: " + insertError.value);
    }
    return Ok(payload);
  }
}
