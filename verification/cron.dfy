/** `parse_cron_expression` of src/main.py: a five-field crontab line
    (minute hour day month day-of-week, as in the INPUT FILES section of the
    crontab utility in POSIX.1-2017, where weekday 0 is Sunday) becomes the
    keyword arguments of an APScheduler cron trigger, where weekday 0 is
    Monday. */
module Cron {
  import opened Wrappers
  import opened PyStr

  /** A keyword-argument value: the field's text, or the converted
      weekday number (the only integer the parser produces). */
  datatype TriggerValue = Text(text: string) | DayNumber(day: int)

  datatype Weekday = Monday | Tuesday | Wednesday | Thursday | Friday | Saturday | Sunday

  /** Crontab numbering: 0 is Sunday. */
  function CrontabWeekday(d: int): Weekday
    requires 0 <= d < 7
  {
    [Sunday, Monday, Tuesday, Wednesday, Thursday, Friday, Saturday][d]
  }

  /** APScheduler numbering: 0 is Monday. */
  function SchedulerWeekday(d: int): Weekday
    requires 0 <= d < 7
  {
    [Monday, Tuesday, Wednesday, Thursday, Friday, Saturday, Sunday][d]
  }

  /** `(cron_dow + 6) % 7`: the APScheduler number of the same weekday
      (a crontab number above 6 is first taken modulo 7). */
  function ToSchedulerWeekday(cronDay: nat): (d: int)
    ensures 0 <= d < 7
    ensures SchedulerWeekday(d) == CrontabWeekday(cronDay % 7)
  {
    (cronDay + 6) % 7
  }

  /** The conversion maps 0 to 6 and every other crontab day to the one
      before it, so it is a bijection on 0..6. */
  lemma ToSchedulerWeekdayBijective(a: nat, b: nat)
    requires a < 7 && b < 7 && ToSchedulerWeekday(a) == ToSchedulerWeekday(b)
    ensures a == b
  {
  }

  function InvalidCronMessage(cron: string): string {
    "Invalid cron expression: " + cron + ". Expected 5 parts (minute hour day month day_of_week)."
  }

  /** The value stored for the day-of-week field `w` (not `*`): digits are
      converted, anything else (`mon`, `1-5`) is passed through. */
  function WeekdayValue(w: string): (v: TriggerValue)
    ensures IsDigits(w) ==> v.DayNumber? && 0 <= v.day < 7
    ensures !IsDigits(w) ==> v == Text(w)
  {
    if IsDigits(w) then DayNumber(ToSchedulerWeekday(DigitsValue(w))) else Text(w)
  }

  /** `trigger_kwargs[name] = value` done only when the field is not `*`. */
  function SetUnlessStar(kwargs: map<string, TriggerValue>, name: string, field: string, value: TriggerValue): (r: map<string, TriggerValue>)
    ensures r.Keys == if field != "*" then kwargs.Keys + {name} else kwargs.Keys
    ensures forall k :: k in kwargs && k != name ==> r[k] == kwargs[k]
    ensures field != "*" ==> r[name] == value
  {
    if field != "*" then kwargs[name := value] else kwargs
  }

  /** The keyword `name` is present exactly when its field is not `*`, and
      then holds `value`. */
  predicate SetsField(kwargs: map<string, TriggerValue>, name: string, field: string, value: TriggerValue) {
    (name in kwargs <==> field != "*") && (name in kwargs ==> kwargs[name] == value)
  }

  /** The keyword arguments for five fields, inserted in the source's order. */
  function TriggerKwargs(minute: string, hour: string, day: string, month: string, dayOfWeek: string): (r: map<string, TriggerValue>)
    ensures r.Keys <= {"minute", "hour", "day", "month", "day_of_week"}
    ensures SetsField(r, "minute", minute, Text(minute))
    ensures SetsField(r, "hour", hour, Text(hour))
    ensures SetsField(r, "day", day, Text(day))
    ensures SetsField(r, "month", month, Text(month))
    ensures SetsField(r, "day_of_week", dayOfWeek, WeekdayValue(dayOfWeek))
  {
    var kwargs := SetUnlessStar(map[], "minute", minute, Text(minute));
    var kwargs := SetUnlessStar(kwargs, "hour", hour, Text(hour));
    var kwargs := SetUnlessStar(kwargs, "day", day, Text(day));
    var kwargs := SetUnlessStar(kwargs, "month", month, Text(month));
    SetUnlessStar(kwargs, "day_of_week", dayOfWeek, WeekdayValue(dayOfWeek))
  }

  /** `parse_cron_expression`: a ValueError unless the line splits into
      exactly five fields; otherwise one keyword per field that is not `*`.
      The `isdigit` test on the first four fields chooses between two equal
      branches, so those fields pass through unchanged. */
  function ParseCronExpression(cron: string): (r: Result<map<string, TriggerValue>, string>)
    ensures r.Err? <==> |Split(Strip(cron))| != 5
    ensures r.Err? ==> r.error == InvalidCronMessage(cron)
    ensures r.Ok? ==> r.value.Keys <= {"minute", "hour", "day", "month", "day_of_week"}
    ensures r.Ok? ==> var p := Split(Strip(cron));
      && SetsField(r.value, "minute", p[0], Text(p[0]))
      && SetsField(r.value, "hour", p[1], Text(p[1]))
      && SetsField(r.value, "day", p[2], Text(p[2]))
      && SetsField(r.value, "month", p[3], Text(p[3]))
      && SetsField(r.value, "day_of_week", p[4], WeekdayValue(p[4]))
  {
    var parts := Split(Strip(cron));
    if |parts| != 5 then
      Err(InvalidCronMessage(cron))
    else
      Ok(TriggerKwargs(parts[0], parts[1], parts[2], parts[3], parts[4]))
  }

  /** A numeric crontab weekday names the same day after conversion. */
  lemma WeekdayPreserved(cron: string)
    requires ParseCronExpression(cron).Ok?
    requires IsDigits(Split(Strip(cron))[4])
    ensures "day_of_week" in ParseCronExpression(cron).value
    ensures var v := ParseCronExpression(cron).value["day_of_week"];
      v.DayNumber? && 0 <= v.day < 7
      && SchedulerWeekday(v.day) == CrontabWeekday(DigitsValue(Split(Strip(cron))[4]) % 7)
  {
    var w := Split(Strip(cron))[4];
    assert w != "*" by { assert IsDigit(w[0]); }
  }
}
