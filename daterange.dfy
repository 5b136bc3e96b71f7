/** Choosing the date range of the nutrition summary: a custom pair of dates
    when both are given and both parse, otherwise one of the presets. Dates
    are day numbers; `today` and its day of the month are inputs, and the
    `%Y-%m-%d` parser is a parameter. */
module DateRange {
  import opened Common
  import opened Records

  datatype Range = Range(start: Day, end: Day)
  {
    /** `(end_date - start_date).days + 1`. */
    function Days(): int { end - start + 1 }

    predicate Contains(d: Day) { start <= d <= end }
  }

  /** `request.GET.get("range", "today")`. */
  function PresetName(param: Option<string>): string
  {
    param.GetOr("today")
  }

  /** Both dates given and both parsed; `None` when either string is blank
      or either parse raises. */
  function CustomRange(startStr: Option<string>, endStr: Option<string>, parse: string -> Option<Day>): (r: Option<Range>)
    ensures r.Some? <==> !Blank(startStr) && !Blank(endStr) && parse(startStr.value).Some? && parse(endStr.value).Some?
    ensures r.Some? ==> r.value == Range(parse(startStr.value).value, parse(endStr.value).value)
  {
    if Blank(startStr) || Blank(endStr) then None
    else
      var s := parse(startStr.value);
      var e := parse(endStr.value);
      if s.Some? && e.Some? then Some(Range(s.value, e.value)) else None
  }

  /** The preset ranges, all ending today: "today", "30" (thirty days),
      "month" (from the first of the month) and, for anything else, seven
      days. */
  function PresetRange(preset: string, today: Day, dayOfMonth: int): (r: Range)
    requires 1 <= dayOfMonth <= 31
    ensures r.end == today && r.start <= r.end && r.Days() >= 1
    ensures r.Days() == (if preset == "today" then 1
                         else if preset == "30" then 30
                         else if preset == "month" then dayOfMonth
                         else 7)
  {
    if preset == "today" then Range(today, today)
    else if preset == "30" then Range(today - 29, today)
    else if preset == "month" then Range(today - (dayOfMonth - 1), today)
    else Range(today - 6, today)
  }

  /** The range the summary uses. */
  function SelectRange(preset: Option<string>, startStr: Option<string>, endStr: Option<string>,
                       parse: string -> Option<Day>, today: Day, dayOfMonth: int): (r: Range)
    requires 1 <= dayOfMonth <= 31
    ensures CustomRange(startStr, endStr, parse).Some? ==> r == CustomRange(startStr, endStr, parse).value
    ensures CustomRange(startStr, endStr, parse).None? ==>
      r.end == today && 1 <= r.Days() <= 31 && r == PresetRange(PresetName(preset), today, dayOfMonth)
  {
    var custom := CustomRange(startStr, endStr, parse);
    if custom.Some? then custom.value else PresetRange(PresetName(preset), today, dayOfMonth)
  }

  /** A custom range whose end is the day before its start has no day at
      all, so the per-day average divides by zero. */
  lemma ReversedCustomRangeHasNoDays(startStr: string, endStr: string, parse: string -> Option<Day>, d: Day)
    requires startStr != "" && endStr != ""
    requires parse(startStr) == Some(d + 1) && parse(endStr) == Some(d)
    ensures CustomRange(Some(startStr), Some(endStr), parse).value.Days() == 0
  {
  }

  /** One blank date is enough to fall back to the preset. */
  lemma HalfCustomUsesPreset(startStr: string, parse: string -> Option<Day>, today: Day)
    ensures SelectRange(Some("30"), Some(startStr), None, parse, today, 1) == Range(today - 29, today)
  {
  }
}
