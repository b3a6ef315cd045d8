/**
 * `PreviewComponent`: renders the projects the section store holds, with
 * their periods written out in long month names.
 */
module Preview {
  import opened Wrappers
  import opened Text
  import opened Dates
  import opened SectionStore
  import opened Projects

  /**
   * `Intl.DateTimeFormat('en-US', { month: 'long', year: 'numeric' }).format`
   * on a valid date: the host's formatter, left uninterpreted. On an Invalid
   * Date it throws, which `FormatMonthYear` handles itself.
   */
  type LongMonthYear = Date -> string

  /** `projects()`: the `"projects"` section of the store's current value, or none. */
  function PreviewProjects(state: map<string, seq<StoredProject>>): (ps: seq<StoredProject>)
    ensures "projects" !in state ==> ps == []
    ensures "projects" in state ==> ps == state["projects"]
  {
    StoredProjects(state)
  }

  /** What the preview shows after the projects editor persists: its normalised projects, in order. */
  lemma PreviewShowsPersisted(before: map<string, seq<StoredProject>>, forms: seq<ProjectForm>)
    ensures PreviewProjects(WithSection(before, "projects", NormalizeProjects(forms))) == NormalizeProjects(forms)
  {
  }

  /** The preview's `parseMonthYear(value)`: the `"YYYY-MM"` shortcut, else the browser's parser if it succeeds. */
  function PreviewParse(value: string, newDate: DateParser): (r: Option<Date>)
    ensures IsMonthYear(value) ==> r == Some(MakeDate(DigitsValue(value[..4]), DigitsValue(value[5..]) - 1))
    ensures !IsMonthYear(value) ==> (r.Some? <==> newDate(value).Date?)
    ensures !IsMonthYear(value) && r.Some? ==> r.value == newDate(value)
  {
    if IsMonthYear(value) then Some(MakeDate(DigitsValue(value[..4]), DigitsValue(value[5..]) - 1))
    else if newDate(value).Date? then Some(newDate(value))
    else None
  }

  /** A `"YYYY-MM"` string always denotes a valid date: four digits keep it far inside the time-value range. */
  lemma MonthYearIsValid(value: string)
    requires IsMonthYear(value)
    ensures MakeDate(DigitsValue(value[..4]), DigitsValue(value[5..]) - 1).Date?
  {
    var year, monthIndex := DigitsValue(value[..4]), DigitsValue(value[5..]) - 1;
    DigitsValueBound(value[..4]);
    DigitsValueBound(value[5..]);
    assert Pow10(4) == 10000 && Pow10(2) == 100;
    assert 0 <= year < 10000 && -1 <= monthIndex < 99;
    var y := FullYear(year) + monthIndex / 12;
    assert -1 <= monthIndex / 12 <= 8;
    assert InRange(y, monthIndex % 12 + 1);
  }

  /** Both date-string readers agree wherever the preview's reads something; otherwise the editor falls back to splitting. */
  lemma ParsersAgree(value: string, newDate: DateParser)
    requires value != ""
    ensures PreviewParse(value, newDate).Some? ==> ParseMonthYear(Some(value), newDate) == PreviewParse(value, newDate)
    ensures PreviewParse(value, newDate).None? ==> ParseMonthYear(Some(value), newDate) == SplitMonthYear(value)
  {
  }

  /**
   * `formatMonthYear(value)`: empty for no value; the value itself when it
   * does not parse or the formatter throws; otherwise the long form.
   */
  function FormatMonthYear(value: Option<string>, newDate: DateParser, longMonthYear: LongMonthYear): (r: string)
    ensures value.None? || value == Some("") ==> r == ""
    ensures value.Some? && value.value != "" && PreviewParse(value.value, newDate).None? ==> r == value.value
    ensures value.Some? && value.value != "" && PreviewParse(value.value, newDate).Some? ==>
      r == if PreviewParse(value.value, newDate).value.Date? then longMonthYear(PreviewParse(value.value, newDate).value)
           else value.value
  {
    if value.None? || value.value == "" then ""
    else
      match PreviewParse(value.value, newDate)
      case None => value.value
      case Some(InvalidDate) => value.value
      case Some(d) => longMonthYear(d)
  }

  /** Nothing the preview formats comes out empty unless the long form itself is empty. */
  lemma FormatMonthYearNonEmpty(value: string, newDate: DateParser, longMonthYear: LongMonthYear)
    requires value != ""
    requires forall d: Date :: d.Date? ==> longMonthYear(d) != ""
    ensures FormatMonthYear(Some(value), newDate, longMonthYear) != ""
  {
  }

  /** A stored `"YYYY-MM"` value is always shown in its long form, never raw. */
  lemma StoredDateRendersLong(value: string, newDate: DateParser, longMonthYear: LongMonthYear)
    requires IsMonthYear(value)
    ensures FormatMonthYear(Some(value), newDate, longMonthYear)
            == longMonthYear(MakeDate(DigitsValue(value[..4]), DigitsValue(value[5..]) - 1))
  {
    MonthYearIsValid(value);
  }

  /** A month the editor holds is shown as that month, end to end. */
  lemma EditorDateRendersLong(year: int, month: int, newDate: DateParser, longMonthYear: LongMonthYear)
    requires 1000 <= year <= 9999 && 1 <= month <= 12
    ensures FormatMonthYear(ToMonthYearString(Some(Date(year, month))), newDate, longMonthYear)
            == longMonthYear(Date(year, month))
  {
    ToMonthYearStringShape(year, month);
    var s := ToMonthYearString(Some(Date(year, month))).value;
    StoredDateRendersLong(s, newDate, longMonthYear);
    MakeDateOfMonth(year, month);
  }

  /** The label for a period's end: `Present` when it has none. */
  function PeriodEnd(endDate: Option<string>, newDate: DateParser, longMonthYear: LongMonthYear): (r: string)
    ensures endDate.None? || endDate == Some("") ==> r == "Present"
    ensures endDate.Some? && endDate.value != "" ==> r == FormatMonthYear(endDate, newDate, longMonthYear)
  {
    if endDate.Some? && endDate.value != "" then FormatMonthYear(endDate, newDate, longMonthYear) else "Present"
  }

  /** `formatProjectPeriod(startDate, endDate)`: both ends joined by ` - ` when both show, else whichever does. */
  function FormatProjectPeriod(startDate: Option<string>, endDate: Option<string>,
                               newDate: DateParser, longMonthYear: LongMonthYear): (r: string)
    ensures var (s, e) := (FormatMonthYear(startDate, newDate, longMonthYear), PeriodEnd(endDate, newDate, longMonthYear));
            (s != "" && e != "" ==> r == s + " - " + e) &&
            (s == "" ==> r == e) &&
            (e == "" ==> r == s)
  {
    var start := FormatMonthYear(startDate, newDate, longMonthYear);
    var end := PeriodEnd(endDate, newDate, longMonthYear);
    if start != "" && end != "" then start + " - " + end
    else if start != "" then start
    else if end != "" then end
    else ""
  }

  /** A project without an end date runs to `Present`. */
  lemma OpenEndedPeriod(startDate: Option<string>, newDate: DateParser, longMonthYear: LongMonthYear)
    ensures var s := FormatMonthYear(startDate, newDate, longMonthYear);
            FormatProjectPeriod(startDate, None, newDate, longMonthYear) == if s == "" then "Present" else s + " - Present"
  {
  }

  /** A project the editor saved with both months shows `<start> - <end>` in long form. */
  lemma SavedPeriodRendersLong(start: Date, end: Date, newDate: DateParser, longMonthYear: LongMonthYear)
    requires start.Date? && 1000 <= start.year <= 9999 && 1 <= start.month <= 12
    requires end.Date? && 1000 <= end.year <= 9999 && 1 <= end.month <= 12
    requires longMonthYear(start) != "" && longMonthYear(end) != ""
    ensures FormatProjectPeriod(ToMonthYearString(Some(start)), ToMonthYearString(Some(end)), newDate, longMonthYear)
            == longMonthYear(start) + " - " + longMonthYear(end)
  {
    EditorDateRendersLong(start.year, start.month, newDate, longMonthYear);
    EditorDateRendersLong(end.year, end.month, newDate, longMonthYear);
    ToMonthYearStringShape(end.year, end.month);
  }
}
