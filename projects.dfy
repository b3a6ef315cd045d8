/**
 * `ProjectsComponent`: the projects editor. Its form holds dates as `Date`
 * values; the section store holds them as `"YYYY-MM"` strings. Also the
 * `MonthYearDateAdapter` that reads and writes `MM/YYYY` in the date inputs.
 */
module Projects {
  import opened Wrappers
  import opened Text
  import opened Dates
  import opened FormArrays
  import opened SectionStore

  /** A project as the section store holds it. */
  datatype StoredProject = StoredProject(
    name: string,
    role: string,
    startDate: Option<string>,
    endDate: Option<string>,
    description: string,
    responsibilities: seq<string>,
    technologies: seq<string>,
    photo: Option<string>)

  /** The raw value of one project group; list controls may hold `null`. */
  datatype ProjectForm = ProjectForm(
    name: string,
    role: string,
    startDate: Option<Date>,
    endDate: Option<Date>,
    description: string,
    responsibilities: seq<Option<string>>,
    technologies: seq<Option<string>>,
    photo: Option<string>)

  /** `new Date(value)`: the browser's own date-string parser, left uninterpreted. */
  type DateParser = string -> Date

  // ---- `"YYYY-MM"` strings ----

  /** `/^\d{4}-\d{2}$/.test(s)` */
  predicate IsMonthYear(s: string) {
    |s| == 7 && AllDigits(s[..4]) && s[4] == '-' && AllDigits(s[5..])
  }

  /** A string `toMonthYearString` can produce: no leading zero in the year, month 01 to 12. */
  predicate IsCanonicalMonthYear(s: string) {
    IsMonthYear(s) && s[0] != '0' && 1 <= DigitsValue(s[5..]) <= 12
  }

  /** For such a string, `value.split('-').map(p => parseInt(p, 10))` is its year and its month. */
  lemma MonthYearParts(s: string)
    requires IsMonthYear(s)
    ensures Split(s, {'-'}) == [s[..4], s[5..]]
    ensures ParseInt(s[..4]) == Some(DigitsValue(s[..4]))
    ensures ParseInt(s[5..]) == Some(DigitsValue(s[5..]))
  {
    assert s == s[..4] + ['-'] + s[5..];
    NoSeparatorInDigits(s[..4]);
    NoSeparatorInDigits(s[5..]);
    SplitAt(s[..4], '-', s[5..], {'-'});
    SplitWithout(s[5..], {'-'});
    ParseIntOfDigits(s[..4]);
    ParseIntOfDigits(s[5..]);
  }

  /** `toMonthYearString(date)`: `null` for no date or an Invalid Date, else year, `-`, two-digit month. */
  function ToMonthYearString(date: Option<Date>): (r: Option<string>)
    ensures r.Some? <==> date.Some? && date.value.Date?
  {
    match date
    case None => None
    case Some(InvalidDate) => None
    case Some(Date(year, month)) => Some(IntToString(year) + "-" + PadStart2(IntToString(month)))
  }

  /** A four-digit year and a month 1..12 come out as a canonical `"YYYY-MM"` string. */
  lemma ToMonthYearStringShape(year: int, month: int)
    requires 1000 <= year <= 9999 && 1 <= month <= 12
    ensures ToMonthYearString(Some(Date(year, month))).Some?
    ensures var s := ToMonthYearString(Some(Date(year, month))).value;
            IsCanonicalMonthYear(s) && DigitsValue(s[..4]) == year && DigitsValue(s[5..]) == month
  {
    var y := IntToString(year);
    var m := PadStart2(IntToString(month));
    var s := y + "-" + m;
    FourDigitYear(year);
    PaddedMonthDigits(month);
    DigitsOfNatToString(year);
    assert s[..4] == y && s[5..] == m;
  }

  /**
   * The last resort of `parseMonthYear`: the first two numbers around `/`
   * or `-`; a first number above 12 is the year, otherwise it is the month.
   */
  function SplitMonthYear(v: string): Option<Date> {
    var parts := Split(v, {'/', '-'});
    if |parts| >= 2 then PickMonthYear(ParseInt(parts[0]), ParseInt(parts[1])) else None
  }

  /** `[month, year] = first > 12 ? [second, first] : [first, second]`, both numbers required. */
  function PickMonthYear(first: Option<int>, second: Option<int>): (r: Option<Date>)
    ensures r.Some? <==> first.Some? && second.Some?
    ensures first.Some? && second.Some? && first.value > 12 ==>
      r == Some(MakeDate(first.value, second.value - 1))
    ensures first.Some? && second.Some? && first.value <= 12 ==>
      r == Some(MakeDate(second.value, first.value - 1))
  {
    if first.Some? && second.Some? then
      var month := if first.value > 12 then second.value else first.value;
      var year := if first.value > 12 then first.value else second.value;
      Some(MakeDate(year, month - 1))
    else None
  }

  /**
   * `parseMonthYear(value)`: `null` for no value; a `"YYYY-MM"` string is
   * read directly (see MonthYearParts); otherwise the browser's parser, and
   * if that fails too, SplitMonthYear.
   */
  function ParseMonthYear(value: Option<string>, newDate: DateParser): (r: Option<Date>)
    ensures value.None? || value == Some("") ==> r.None?
    ensures value.Some? && IsMonthYear(value.value) ==>
      r == Some(MakeDate(DigitsValue(value.value[..4]), DigitsValue(value.value[5..]) - 1))
    ensures value.Some? && value.value != "" && !IsMonthYear(value.value) ==>
      r == if newDate(value.value).Date? then Some(newDate(value.value)) else SplitMonthYear(value.value)
  {
    if value.None? || value.value == "" then None
    else
      var v := value.value;
      if IsMonthYear(v) then Some(MakeDate(DigitsValue(v[..4]), DigitsValue(v[5..]) - 1))
      else if newDate(v).Date? then Some(newDate(v))
      else SplitMonthYear(v)
  }

  /** A string with no `/` or `-` that the browser cannot parse is no date at all. */
  lemma ParseMonthYearNoSeparator(v: string, newDate: DateParser)
    requires v != [] && newDate(v).InvalidDate?
    requires forall k :: 0 <= k < |v| ==> v[k] != '/' && v[k] != '-'
    ensures ParseMonthYear(Some(v), newDate) == None
  {
    assert !IsMonthYear(v) by {
      if |v| == 7 { assert v[4] != '-'; }
    }
    SplitWithout(v, {'/', '-'});
  }

  /** Date to string to date: a four-digit year and a month 1..12 come back unchanged. */
  lemma DateRoundTrip(year: int, month: int, newDate: DateParser)
    requires 1000 <= year <= 9999 && 1 <= month <= 12
    ensures ParseMonthYear(ToMonthYearString(Some(Date(year, month))), newDate) == Some(Date(year, month))
  {
    ToMonthYearStringShape(year, month);
    MakeDateOfMonth(year, month);
  }

  /** String to date to string: a canonical `"YYYY-MM"` string comes back unchanged. */
  lemma MonthYearStringRoundTrip(s: string, newDate: DateParser)
    requires IsCanonicalMonthYear(s)
    ensures ToMonthYearString(ParseMonthYear(Some(s), newDate)) == Some(s)
  {
    ReadCanonical(s, newDate);
    WriteCanonical(s);
  }

  /** Four digits without a leading zero: a year from 1000 to 9999 that `String` writes back as they were. */
  lemma CanonicalYear(ys: string)
    requires |ys| == 4 && AllDigits(ys) && ys[0] != '0'
    ensures 1000 <= DigitsValue(ys) <= 9999 && IntToString(DigitsValue(ys)) == ys
  {
    NatToStringOfDigits(ys);
    FourDigitYear(DigitsValue(ys));
  }

  lemma ReadCanonical(s: string, newDate: DateParser)
    requires IsCanonicalMonthYear(s)
    ensures ParseMonthYear(Some(s), newDate) == Some(Date(DigitsValue(s[..4]), DigitsValue(s[5..])))
  {
    CanonicalYear(s[..4]);
    MakeDateOfMonth(DigitsValue(s[..4]), DigitsValue(s[5..]));
  }

  lemma WriteCanonical(s: string)
    requires IsCanonicalMonthYear(s)
    ensures ToMonthYearString(Some(Date(DigitsValue(s[..4]), DigitsValue(s[5..])))) == Some(s)
  {
    var ys, ms := s[..4], s[5..];
    CanonicalYear(ys);
    PaddedOfTwoDigits(ms);
    assert s == ys + "-" + ms;
  }

  // ---- the project group and its normalisation ----

  /** `project?.startDate ? parseMonthYear(project.startDate) : null` */
  function DateControlOf(stored: Option<string>, newDate: DateParser): (r: Option<Date>)
    ensures stored.None? || stored == Some("") ==> r.None?
    ensures stored.Some? && IsMonthYear(stored.value) ==>
      r == Some(MakeDate(DigitsValue(stored.value[..4]), DigitsValue(stored.value[5..]) - 1))
  {
    if stored.Some? && stored.value != "" then ParseMonthYear(stored, newDate) else None
  }

  /** `items.map(item => new FormControl(item))` */
  function Controls(items: seq<string>): (cs: seq<Option<string>>)
    ensures |cs| == |items|
    ensures forall i :: 0 <= i < |items| ==> cs[i] == Some(items[i])
  {
    seq(|items|, i requires 0 <= i < |items| => Some(items[i]))
  }

  /** The group `addProject()` appends without a stored project: one empty responsibility. */
  const BLANK_PROJECT: ProjectForm := ProjectForm("", "", None, None, "", [Some("")], [], None)

  /** The group `addProject(project?)` appends. */
  function GroupOf(project: Option<StoredProject>, newDate: DateParser): (g: ProjectForm)
    ensures |g.responsibilities| >= 1
  {
    match project
    case None => BLANK_PROJECT
    case Some(p) =>
      ProjectForm(p.name, p.role, DateControlOf(p.startDate, newDate), DateControlOf(p.endDate, newDate),
                  p.description,
                  if |p.responsibilities| > 0 then Controls(p.responsibilities) else [Some("")],
                  if |p.technologies| > 0 then Controls(p.technologies) else [],
                  p.photo)
  }

  /** `existing.forEach(project => addProject(project))`: one group per stored project, in order. */
  function GroupsOf(ps: seq<StoredProject>, newDate: DateParser): (gs: seq<ProjectForm>)
    ensures |gs| == |ps|
    ensures forall i :: 0 <= i < |ps| ==> gs[i] == GroupOf(Some(ps[i]), newDate)
  {
    if ps == [] then [] else GroupsOf(ps[..|ps| - 1], newDate) + [GroupOf(Some(ps[|ps| - 1]), newDate)]
  }

  lemma GroupsOfSnoc(ps: seq<StoredProject>, k: nat, newDate: DateParser)
    requires k < |ps|
    ensures GroupsOf(ps[..k + 1], newDate) == GroupsOf(ps[..k], newDate) + [GroupOf(Some(ps[k]), newDate)]
  {
    assert ps[..k + 1][..k] == ps[..k];
  }

  /** The groups `ngOnInit` adds: one per stored project, or the blank one when there are none. */
  function InitialGroups(existing: seq<StoredProject>, newDate: DateParser): (gs: seq<ProjectForm>)
    ensures |gs| >= 1
    ensures forall i :: 0 <= i < |gs| ==> |gs[i].responsibilities| >= 1
  {
    if |existing| > 0 then GroupsOf(existing, newDate) else [BLANK_PROJECT]
  }

  /** `items.map(item => item ?? '')` */
  function OrEmpty(items: seq<Option<string>>): (r: seq<string>)
    ensures |r| == |items|
    ensures forall i :: 0 <= i < |items| ==> r[i] == items[i].GetOr("")
  {
    seq(|items|, i requires 0 <= i < |items| => items[i].GetOr(""))
  }

  /** `normalizeProject(group)` */
  function NormalizeProject(g: ProjectForm): (p: StoredProject)
    ensures IsTrimmed(p.name) && IsTrimmed(p.role) && IsTrimmed(p.description)
    ensures IsClean(p.responsibilities) && IsClean(p.technologies)
    ensures p.photo == g.photo
  {
    StoredProject(Trim(g.name), Trim(g.role), ToMonthYearString(g.startDate), ToMonthYearString(g.endDate),
                  Trim(g.description), Clean(OrEmpty(g.responsibilities)), Clean(OrEmpty(g.technologies)),
                  g.photo)
  }

  /** A list control normalises to nothing exactly when each entry is `null` or whitespace. */
  lemma CleanOrEmptyIff(items: seq<Option<string>>)
    ensures Clean(OrEmpty(items)) == [] <==> forall i :: 0 <= i < |items| ==> items[i].None? || IsBlank(items[i].value)
  {
    var ss := OrEmpty(items);
    CleanEmptyIff(ss);
    assert (forall i :: 0 <= i < |ss| ==> IsBlank(ss[i])) <==>
           forall i :: 0 <= i < |items| ==> items[i].None? || IsBlank(items[i].value) by {
      forall i | 0 <= i < |items| ensures IsBlank(ss[i]) <==> items[i].None? || IsBlank(items[i].value) {
        assert ss[i] == items[i].GetOr("");
      }
    }
  }

  /** `null` and blank list entries are all dropped. */
  lemma NormalizeDropsNullAndBlank(g: ProjectForm)
    ensures (forall i :: 0 <= i < |g.responsibilities| ==>
               g.responsibilities[i].None? || IsBlank(g.responsibilities[i].value))
            <==> NormalizeProject(g).responsibilities == []
    ensures (forall i :: 0 <= i < |g.technologies| ==>
               g.technologies[i].None? || IsBlank(g.technologies[i].value))
            <==> NormalizeProject(g).technologies == []
  {
    CleanOrEmptyIff(g.responsibilities);
    CleanOrEmptyIff(g.technologies);
  }

  /** `projects.controls.map(normalizeProject)` */
  function NormalizeProjects(gs: seq<ProjectForm>): (ps: seq<StoredProject>)
    ensures |ps| == |gs|
  {
    seq(|gs|, i requires 0 <= i < |gs| => NormalizeProject(gs[i]))
  }

  /** A stored project `normalizeProject` could have written, with canonical dates. */
  predicate IsCanonicalProject(p: StoredProject) {
    IsTrimmed(p.name) && IsTrimmed(p.role) && IsTrimmed(p.description) &&
    IsClean(p.responsibilities) && IsClean(p.technologies) &&
    (p.startDate.Some? ==> IsCanonicalMonthYear(p.startDate.value)) &&
    (p.endDate.Some? ==> IsCanonicalMonthYear(p.endDate.value))
  }

  lemma DateControlRoundTrip(stored: Option<string>, newDate: DateParser)
    requires stored.Some? ==> IsCanonicalMonthYear(stored.value)
    ensures ToMonthYearString(DateControlOf(stored, newDate)) == stored
  {
    if stored.Some? {
      MonthYearStringRoundTrip(stored.value, newDate);
    }
  }

  lemma CleanOfControls(items: seq<string>)
    requires IsClean(items)
    ensures Clean(OrEmpty(if |items| > 0 then Controls(items) else [Some("")])) == items
  {
    if |items| > 0 {
      assert OrEmpty(Controls(items)) == items;
      CleanOfClean(items);
    } else {
      assert OrEmpty([Some("")]) == [""];
      CleanSingle("");
    }
  }

  lemma CleanOfTechnologyControls(items: seq<string>)
    requires IsClean(items)
    ensures Clean(OrEmpty(if |items| > 0 then Controls(items) else [])) == items
  {
    var cs := if |items| > 0 then Controls(items) else [];
    assert OrEmpty(cs) == items;
    CleanOfClean(items);
  }

  /** Loading a stored project into the editor and persisting it again writes the same project. */
  lemma ProjectRoundTrip(p: StoredProject, newDate: DateParser)
    requires IsCanonicalProject(p)
    ensures NormalizeProject(GroupOf(Some(p), newDate)) == p
  {
    var g := GroupOf(Some(p), newDate);
    var q := NormalizeProject(g);
    assert q.name == p.name by { TrimOfTrimmed(p.name); }
    assert q.role == p.role by { TrimOfTrimmed(p.role); }
    assert q.description == p.description by { TrimOfTrimmed(p.description); }
    assert q.startDate == p.startDate by { DateControlRoundTrip(p.startDate, newDate); }
    assert q.endDate == p.endDate by { DateControlRoundTrip(p.endDate, newDate); }
    assert q.responsibilities == p.responsibilities by { CleanOfControls(p.responsibilities); }
    assert q.technologies == p.technologies by { CleanOfTechnologyControls(p.technologies); }
  }

  /** The blank project persists as a project with empty fields and lists. */
  lemma BlankProjectNormalized()
    ensures NormalizeProject(BLANK_PROJECT) == StoredProject("", "", None, None, "", [], [], None)
  {
    assert Trim("") == "" by { TrimOfTrimmed(""); }
    assert Clean(OrEmpty([Some("")])) == [] by {
      CleanOrEmptyIff([Some("")]);
      assert IsBlank("");
    }
    assert Clean(OrEmpty([])) == [] by { CleanOrEmptyIff([]); }
  }

  // ---- MonthYearDateAdapter ----

  /** The adapter's display format for date inputs. */
  const MONTH_YEAR_INPUT: string := "MM/YYYY"

  /** The adapter's own reading of `value`: the first two parts around `/` are month then year, both numbers required. */
  function ReadSlashed(value: string): (r: Option<Date>)
    ensures r.Some? <==> |Split(value, {'/'})| >= 2 && ParseInt(Split(value, {'/'})[0]).Some? &&
                         ParseInt(Split(value, {'/'})[1]).Some?
    ensures r.Some? ==>
      r.value == MakeDate(ParseInt(Split(value, {'/'})[1]).value, ParseInt(Split(value, {'/'})[0]).value - 1)
  {
    var parts := Split(value, {'/'});
    if |parts| >= 2 then MonthThenYear(ParseInt(parts[0]), ParseInt(parts[1])) else None
  }

  function MonthThenYear(month: Option<int>, year: Option<int>): Option<Date> {
    if month.Some? && year.Some? then Some(MakeDate(year.value, month.value - 1)) else None
  }

  /**
   * `MonthYearDateAdapter.parse(value)`: `MM/YYYY` read as month then year
   * (a two-digit year is 19xx); anything else goes to the native adapter.
   */
  function AdapterParse(value: string, nativeParse: string -> Option<Date>): (r: Option<Date>)
    ensures value == "" ==> r == nativeParse(value)
    ensures value != "" && ReadSlashed(value).Some? ==> r == ReadSlashed(value)
    ensures ReadSlashed(value).None? ==> r == nativeParse(value)
  {
    if value != "" && ReadSlashed(value).Some? then ReadSlashed(value) else nativeParse(value)
  }

  /** `MM/YYYY` as the adapter writes it: two-digit month, `/`, the year. */
  lemma ReadSlashedWritten(month: int, year: int)
    requires 1 <= month <= 12
    ensures ReadSlashed(PadStart2(IntToString(month)) + "/" + IntToString(year)) == Some(MakeDate(year, month - 1))
  {
    var mm := PadStart2(IntToString(month));
    var yy := IntToString(year);
    PaddedMonthDigits(month);
    SlashParts(mm, year);
    ParseIntOfDigits(mm);
    ParseIntOfIntToString(year);
    ReadSlashedOfParts(mm + "/" + yy, mm, yy);
    MonthThenYearOf(ParseInt(mm), ParseInt(yy), month, year);
  }

  lemma ReadSlashedOfParts(value: string, mm: string, yy: string)
    requires Split(value, {'/'}) == [mm, yy]
    ensures ReadSlashed(value) == MonthThenYear(ParseInt(mm), ParseInt(yy))
  {
  }

  lemma MonthThenYearOf(m: Option<int>, y: Option<int>, month: int, year: int)
    requires m == Some(month) && y == Some(year)
    ensures MonthThenYear(m, y) == Some(MakeDate(year, month - 1))
  {
  }

  /** `MM/YYYY` as the adapter writes it splits into the month and the year. */
  lemma SlashParts(mm: string, year: int)
    requires AllDigits(mm)
    ensures Split(mm + "/" + IntToString(year), {'/'}) == [mm, IntToString(year)]
  {
    var yy := IntToString(year);
    NoSeparatorInDigits(mm);
    NoSlashInIntToString(year);
    assert mm + "/" + yy == mm + ['/'] + yy;
    SplitAt(mm, '/', yy, {'/'});
  }

  /** Digits are neither of the separators either parser splits on. */
  lemma NoSeparatorInDigits(s: string)
    requires AllDigits(s)
    ensures forall k :: 0 <= k < |s| ==> s[k] !in {'/'}
    ensures forall k :: 0 <= k < |s| ==> s[k] !in {'-'}
  {
    forall k | 0 <= k < |s| ensures s[k] !in {'/'} && s[k] !in {'-'} {
      assert IsDigit(s[k]);
    }
  }

  lemma NoSlashInIntToString(n: int)
    ensures Split(IntToString(n), {'/'}) == [IntToString(n)]
  {
    var s := IntToString(n);
    var digits := NatToString(if n < 0 then -n else n);
    forall k | 0 <= k < |s| ensures s[k] !in {'/'} {
      if n < 0 {
        assert s == "-" + digits;
        if k > 0 { assert s[k] == digits[k - 1] && IsDigit(digits[k - 1]); }
      } else {
        assert s == digits && IsDigit(digits[k]);
      }
    }
    SplitWithout(s, {'/'});
  }

  /**
   * `MonthYearDateAdapter.format(date, displayFormat)`: `MM/YYYY` for the
   * date-input format (`NaN/NaN` for an Invalid Date); any other format goes
   * to the native adapter.
   */
  function AdapterFormat(date: Date, displayFormat: string, nativeFormat: (Date, string) -> string): string {
    if displayFormat == MONTH_YEAR_INPUT then
      match date
      case Date(year, month) => PadStart2(IntToString(month)) + "/" + IntToString(year)
      case InvalidDate => "NaN/NaN"
    else nativeFormat(date, displayFormat)
  }

  /** What the adapter writes into a date input it reads back, for a year outside 0..99. */
  lemma AdapterRoundTrip(year: int, month: int, nativeParse: string -> Option<Date>,
                         nativeFormat: (Date, string) -> string)
    requires 1 <= month <= 12 && InRange(year, month) && !(0 <= year <= 99)
    ensures AdapterParse(AdapterFormat(Date(year, month), MONTH_YEAR_INPUT, nativeFormat), nativeParse)
            == Some(Date(year, month))
  {
    ReadSlashedWritten(month, year);
    MakeDateOfMonth(year, month);
  }

  /** A two-digit year does not survive the adapter: it comes back in the 1900s. */
  lemma AdapterTwoDigitYear(year: int, month: int, nativeParse: string -> Option<Date>,
                            nativeFormat: (Date, string) -> string)
    requires 1 <= month <= 12 && 0 <= year <= 99
    ensures AdapterParse(AdapterFormat(Date(year, month), MONTH_YEAR_INPUT, nativeFormat), nativeParse)
            == Some(Date(1900 + year, month))
  {
    ReadSlashedWritten(month, year);
    MakeDateTwoDigitYear(year, month);
  }

  // ---- the component ----

  /** `cvService.getCvData()?.projects ?? []` */
  function StoredProjects(data: map<string, seq<StoredProject>>): (ps: seq<StoredProject>)
    ensures "projects" !in data ==> ps == []
    ensures "projects" in data ==> ps == data["projects"]
  {
    if "projects" in data then data["projects"] else []
  }

  /** Which date control `onMonthSelected` / `handleDateInput` sets. */
  datatype DateField = StartDate | EndDate

  class ProjectsComponent {
    var projects: seq<ProjectForm>
    const cvService: CvService<seq<StoredProject>>
    const newDate: DateParser

    ghost predicate Valid()
      reads this, cvService
    {
      cvService.Valid()
    }

    /** The editor's shape once initialised: at least one project, each with at least one responsibility. */
    ghost predicate Seeded()
      reads this
    {
      |projects| >= 1 && forall i :: 0 <= i < |projects| ==> |projects[i].responsibilities| >= 1
    }

    /** The store after `persistProjects()` on top of `before`. */
    function Published(before: map<string, seq<StoredProject>>): map<string, seq<StoredProject>>
      reads this
    {
      WithSection(before, "projects", NormalizeProjects(projects))
    }

    constructor (cvService: CvService<seq<StoredProject>>, newDate: DateParser)
      requires cvService.Valid()
      ensures Valid() && this.cvService == cvService && this.newDate == newDate
      ensures projects == []
    {
      this.cvService := cvService;
      this.newDate := newDate;
      projects := [];
    }

    /** `persistProjects()`: writes every normalised project under `"projects"`. */
    method PersistProjects()
      requires Valid()
      modifies cvService
      ensures Valid()
      ensures cvService.history == old(cvService.history) + [Published(old(cvService.Current()))]
    {
      cvService.UpdateSection("projects", NormalizeProjects(projects));
    }

    /** `addProject(project?)`: appends a group built from `project` (or a blank one), then persists. */
    method AddProject(project: Option<StoredProject>)
      requires Valid()
      modifies this, cvService
      ensures Valid()
      ensures projects == old(projects) + [GroupOf(project, newDate)]
      ensures cvService.history == old(cvService.history) + [Published(old(cvService.Current()))]
      ensures old(Seeded()) ==> Seeded()
    {
      projects := projects + [GroupOf(project, newDate)];
      PersistProjects();
    }

    /** `ngOnInit()`: one group per stored project, or one blank group when there are none; each addition persists. */
    method NgOnInit()
      requires Valid()
      modifies this, cvService
      ensures Valid()
      ensures projects == old(projects) + InitialGroups(StoredProjects(old(cvService.Current())), newDate)
      ensures cvService.Current() == Published(old(cvService.Current()))
      ensures (forall i :: 0 <= i < |old(projects)| ==> |old(projects)[i].responsibilities| >= 1) ==> Seeded()
    {
      var data := cvService.GetCvData();
      var existing := StoredProjects(data);
      if |existing| > 0 {
        AddEach(existing);
      } else {
        AddProject(None);
      }
    }

    /** `existing.forEach(project => addProject(project))` */
    method AddEach(existing: seq<StoredProject>)
      requires Valid() && |existing| > 0
      modifies this, cvService
      ensures Valid()
      ensures projects == old(projects) + GroupsOf(existing, newDate)
      ensures cvService.Current() == Published(old(cvService.Current()))
    {
      ghost var data := cvService.Current();
      for k := 0 to |existing|
        invariant Valid()
        invariant projects == old(projects) + GroupsOf(existing[..k], newDate)
        invariant k > 0 ==> cvService.Current() == Published(data)
        invariant k == 0 ==> cvService.Current() == data
      {
        GroupsOfSnoc(existing, k, newDate);
        ghost var before := cvService.Current();
        AddProject(Some(existing[k]));
        if k > 0 {
          LastWriteWins(data, "projects", before["projects"], NormalizeProjects(projects));
        }
      }
      assert existing[..|existing|] == existing;
    }

    /** `removeProject(index)`: removes that group; an emptied list gets a blank group, and either way the store is written. */
    method RemoveProject(index: nat)
      requires Valid()
      modifies this, cvService
      ensures Valid()
      ensures |RemoveAt(old(projects), index)| > 0 ==> projects == RemoveAt(old(projects), index)
      ensures |RemoveAt(old(projects), index)| == 0 ==> projects == [BLANK_PROJECT]
      ensures |projects| >= 1
      ensures cvService.history == old(cvService.history) + [Published(old(cvService.Current()))]
      ensures old(Seeded()) ==> Seeded()
    {
      projects := RemoveAt(projects, index);
      if |projects| == 0 {
        AddProject(None);
      } else {
        PersistProjects();
      }
    }

    /**
     * `addResponsibility(projectIndex)`: appends an empty entry. A project
     * index past the end makes `at(...).get` throw: `ok` is false and nothing changes.
     */
    method AddResponsibility(projectIndex: nat) returns (ok: bool)
      modifies this
      ensures ok <==> projectIndex < |old(projects)|
      ensures ok ==> var g := old(projects)[projectIndex];
        projects == old(projects)[projectIndex := g.(responsibilities := g.responsibilities + [Some("")])]
      ensures !ok ==> projects == old(projects)
      ensures old(Seeded()) ==> Seeded()
    {
      ok := projectIndex < |projects|;
      if !ok {
        return;
      }
      var g := projects[projectIndex];
      projects := projects[projectIndex := g.(responsibilities := g.responsibilities + [Some("")])];
    }

    /** `removeResponsibility(projectIndex, responsibilityIndex)`: removes one entry; removing the last leaves one empty entry. */
    method RemoveResponsibility(projectIndex: nat, responsibilityIndex: nat) returns (ok: bool)
      modifies this
      ensures ok <==> projectIndex < |old(projects)|
      ensures ok ==> var g := old(projects)[projectIndex];
        var rest := RemoveAt(g.responsibilities, responsibilityIndex);
        projects == old(projects)[projectIndex := g.(responsibilities := if |rest| > 0 then rest else [Some("")])]
      ensures ok ==> |projects[projectIndex].responsibilities| >= 1
      ensures !ok ==> projects == old(projects)
      ensures old(Seeded()) ==> Seeded()
    {
      ok := projectIndex < |projects|;
      if !ok {
        return;
      }
      var g := projects[projectIndex];
      var rest := RemoveAt(g.responsibilities, responsibilityIndex);
      if |rest| == 0 {
        rest := [Some("")];
      }
      projects := projects[projectIndex := g.(responsibilities := rest)];
    }

    /**
     * `addTechnology(event, projectIndex)`: appends the trimmed chip text
     * unless it is empty; the project is only looked up (and a bad index
     * only throws) when there is something to append.
     */
    method AddTechnology(value: string, projectIndex: nat) returns (ok: bool)
      modifies this
      ensures ok <==> Trim(value) == "" || projectIndex < |old(projects)|
      ensures ok && Trim(value) != "" ==> var g := old(projects)[projectIndex];
        projects == old(projects)[projectIndex := g.(technologies := g.technologies + [Some(Trim(value))])]
      ensures Trim(value) == "" || !ok ==> projects == old(projects)
      ensures old(Seeded()) ==> Seeded()
    {
      var trimmed := Trim(value);
      ok := true;
      if trimmed != "" {
        if projectIndex >= |projects| {
          ok := false;
          return;
        }
        var g := projects[projectIndex];
        projects := projects[projectIndex := g.(technologies := g.technologies + [Some(trimmed)])];
      }
    }

    /** `removeTechnology(projectIndex, techIndex)`: removes one chip; a bad project index throws. */
    method RemoveTechnology(projectIndex: nat, techIndex: nat) returns (ok: bool)
      modifies this
      ensures ok <==> projectIndex < |old(projects)|
      ensures ok ==> var g := old(projects)[projectIndex];
        projects == old(projects)[projectIndex := g.(technologies := RemoveAt(g.technologies, techIndex))]
      ensures !ok ==> projects == old(projects)
      ensures old(Seeded()) ==> Seeded()
    {
      ok := projectIndex < |projects|;
      if !ok {
        return;
      }
      var g := projects[projectIndex];
      projects := projects[projectIndex := g.(technologies := RemoveAt(g.technologies, techIndex))];
    }

    /** `onMonthSelected` / `handleDateInput`: sets one date control; a bad project index throws. */
    method SetDate(projectIndex: nat, field: DateField, date: Option<Date>) returns (ok: bool)
      modifies this
      ensures ok <==> projectIndex < |old(projects)|
      ensures ok ==> var g := old(projects)[projectIndex];
        projects == old(projects)[projectIndex := if field == StartDate then g.(startDate := date) else g.(endDate := date)]
      ensures !ok ==> projects == old(projects)
      ensures old(Seeded()) ==> Seeded()
    {
      ok := projectIndex < |projects|;
      if !ok {
        return;
      }
      var g := projects[projectIndex];
      projects := projects[projectIndex := if field == StartDate then g.(startDate := date) else g.(endDate := date)];
    }

    /** `clearPhoto(projectIndex)`: drops that project's photo, then persists; a bad index throws first. */
    method ClearPhoto(projectIndex: nat) returns (ok: bool)
      requires Valid()
      modifies this, cvService
      ensures Valid()
      ensures ok <==> projectIndex < |old(projects)|
      ensures ok ==> projects == old(projects)[projectIndex := old(projects)[projectIndex].(photo := None)]
      ensures ok ==> cvService.history == old(cvService.history) + [Published(old(cvService.Current()))]
      ensures !ok ==> projects == old(projects) && cvService.history == old(cvService.history)
      ensures old(Seeded()) ==> Seeded()
    {
      ok := projectIndex < |projects|;
      if !ok {
        return;
      }
      projects := projects[projectIndex := projects[projectIndex].(photo := None)];
      PersistProjects();
    }
  }
}
