/**
 * `CvFormComponent`: the editable projection of the CV document, its
 * add/remove operations and `persistForm`, which trims the raw form value,
 * drops empty entries and writes the result to the document store.
 */
module CvForm {
  import opened Wrappers
  import opened Text
  import opened CvModel
  import opened CvDataStore
  import opened FormArrays

  /** The raw value of one experience group. */
  datatype ExperienceForm = ExperienceForm(
    projectName: string,
    role: string,
    dates: string,
    description: string,
    bullets: seq<string>,
    technologies: seq<string>)

  /** `cvForm.getRawValue()` */
  datatype CvFormValue = CvFormValue(
    fullName: string,
    position: string,
    summary: string,
    photoUrl: Option<string>,
    languages: seq<string>,
    technologies: seq<string>,
    experiences: seq<ExperienceForm>)

  // ---- from the document to the form ----

  /**
   * The group built from an experience (by `addExperience(initial)` and by
   * `populateInitialData`): an experience without bullets gets one empty bullet.
   */
  function GroupOf(e: Experience): (g: ExperienceForm)
    ensures g.projectName == e.projectName && g.role == e.role && g.dates == e.dates && g.description == e.description
    ensures |g.bullets| >= 1
    ensures g.technologies == e.technologies
  {
    ExperienceForm(e.projectName, e.role, e.dates, e.description,
                   if |e.bullets| > 0 then e.bullets else [""],
                   if |e.technologies| > 0 then e.technologies else [])
  }

  /** The group `addExperience()` appends when it is given no experience. */
  const BLANK_GROUP: ExperienceForm := GroupOf(Experience("", "", "", "", [], [], None))

  /** `experiences.forEach(e => push(group of e))` */
  function GroupsOf(es: seq<Experience>): (gs: seq<ExperienceForm>)
    ensures |gs| == |es|
    decreases |es|
  {
    if es == [] then [] else [GroupOf(es[0])] + GroupsOf(es[1..])
  }

  lemma {:induction false} GroupsOfAt(es: seq<Experience>, i: nat)
    requires i < |es|
    ensures GroupsOf(es)[i] == GroupOf(es[i])
    decreases |es|
  {
    if i > 0 {
      GroupsOfAt(es[1..], i - 1);
    }
  }

  lemma {:induction false} GroupsOfAppend(es: seq<Experience>, e: Experience)
    ensures GroupsOf(es + [e]) == GroupsOf(es) + [GroupOf(e)]
    decreases |es|
  {
    if es == [] {
      assert es + [e] == [e];
    } else {
      assert (es + [e])[1..] == es[1..] + [e];
      GroupsOfAppend(es[1..], e);
    }
  }

  /** The raw form value right after `populateInitialData(d)`. */
  function FormOf(d: CvData): (v: CvFormValue)
    ensures v.fullName == d.fullName && v.position == d.position && v.summary == d.summary
    ensures v.photoUrl == d.photoUrl
    ensures |v.experiences| == |d.experiences|
  {
    CvFormValue(d.fullName, d.position, d.summary, d.photoUrl, d.languages, d.technologies,
                GroupsOf(d.experiences))
  }

  /**
   * Populating keeps every list of `d` as it is, with one exception: an
   * experience without bullets shows exactly one empty bullet.
   */
  lemma PopulatedShape(d: CvData)
    ensures FormOf(d).languages == d.languages && FormOf(d).technologies == d.technologies
    ensures |FormOf(d).experiences| == |d.experiences|
    ensures forall i :: 0 <= i < |d.experiences| ==>
      var (e, g) := (d.experiences[i], FormOf(d).experiences[i]);
      g.technologies == e.technologies &&
      (|e.bullets| > 0 ==> g.bullets == e.bullets) &&
      (|e.bullets| == 0 ==> g.bullets == [""])
  {
    forall i | 0 <= i < |d.experiences| {
      GroupsOfAt(d.experiences, i);
    }
  }

  // ---- from the form to the document: persistForm's normalisation ----

  /** One experience group, trimmed and with empty list entries removed; the form has no icon URLs. */
  function NormalizeExperience(g: ExperienceForm): (e: Experience)
    ensures IsTrimmed(e.projectName) && IsTrimmed(e.role) && IsTrimmed(e.dates) && IsTrimmed(e.description)
    ensures IsClean(e.bullets) && IsClean(e.technologies)
    ensures e.iconUrls == None
  {
    Experience(Trim(g.projectName), Trim(g.role), Trim(g.dates), Trim(g.description),
               Clean(g.bullets), Clean(g.technologies), None)
  }

  /** The filter on normalised experiences: some scalar is non-empty or some list is. */
  predicate IsKept(e: Experience) {
    e.projectName != "" || e.role != "" || e.dates != "" || e.description != "" ||
    |e.bullets| > 0 || |e.technologies| > 0
  }

  /** `experiences.map(normalise).filter(isKept)` */
  function NormalizeExperiences(gs: seq<ExperienceForm>): (es: seq<Experience>)
    ensures |es| <= |gs|
    decreases |gs|
  {
    if gs == [] then []
    else
      var e := NormalizeExperience(gs[0]);
      (if IsKept(e) then [e] else []) + NormalizeExperiences(gs[1..])
  }

  /** Every experience normalisation keeps is trimmed, clean, non-blank and without icon URLs. */
  lemma {:induction false} NormalizeExperiencesNormal(gs: seq<ExperienceForm>)
    ensures forall i :: 0 <= i < |NormalizeExperiences(gs)| ==> IsNormalExperience(NormalizeExperiences(gs)[i])
    decreases |gs|
  {
    if gs != [] {
      var e := NormalizeExperience(gs[0]);
      var head := if IsKept(e) then [e] else [];
      var rest := NormalizeExperiences(gs[1..]);
      NormalizeExperiencesNormal(gs[1..]);
      assert NormalizeExperiences(gs) == head + rest;
      forall i | 0 <= i < |head + rest| ensures IsNormalExperience((head + rest)[i]) {
        if i < |head| {
          assert (head + rest)[i] == e;
        } else {
          assert (head + rest)[i] == rest[i - |head|];
        }
      }
    }
  }

  /** The document `persistForm` writes for a raw form value. */
  function Normalize(v: CvFormValue): (d: CvData)
    ensures IsNormal(d)
    ensures d.photoUrl == v.photoUrl
    ensures |d.languages| <= |v.languages| && |d.technologies| <= |v.technologies|
    ensures |d.experiences| <= |v.experiences|
  {
    NormalizeExperiencesNormal(v.experiences);
    CvData(Trim(v.fullName), Trim(v.position), Trim(v.summary), v.photoUrl,
           Clean(v.languages), Clean(v.technologies), NormalizeExperiences(v.experiences))
  }

  predicate IsNormalExperience(e: Experience) {
    IsTrimmed(e.projectName) && IsTrimmed(e.role) && IsTrimmed(e.dates) && IsTrimmed(e.description) &&
    IsClean(e.bullets) && IsClean(e.technologies) && IsKept(e) && e.iconUrls == None
  }

  /**
   * A normalised document: no string is padded, no list entry is empty, no
   * experience is blank and none carries icon URLs.
   */
  predicate IsNormal(d: CvData) {
    IsTrimmed(d.fullName) && IsTrimmed(d.position) && IsTrimmed(d.summary) &&
    IsClean(d.languages) && IsClean(d.technologies) &&
    forall i :: 0 <= i < |d.experiences| ==> IsNormalExperience(d.experiences[i])
  }

  /** Every field of the group is whitespace only, every list entry too. */
  predicate IsBlankGroup(g: ExperienceForm) {
    IsBlank(g.projectName) && IsBlank(g.role) && IsBlank(g.dates) && IsBlank(g.description) &&
    (forall i :: 0 <= i < |g.bullets| ==> IsBlank(g.bullets[i])) &&
    (forall i :: 0 <= i < |g.technologies| ==> IsBlank(g.technologies[i]))
  }

  /** An experience group is dropped exactly when it is blank. */
  lemma DroppedIffBlank(g: ExperienceForm)
    ensures !IsKept(NormalizeExperience(g)) <==> IsBlankGroup(g)
  {
    TrimEmptyIff(g.projectName);
    TrimEmptyIff(g.role);
    TrimEmptyIff(g.dates);
    TrimEmptyIff(g.description);
    CleanEmptyIff(g.bullets);
    CleanEmptyIff(g.technologies);
  }

  /** Normalisation works group by group and keeps the order of the groups it keeps. */
  lemma {:induction false} NormalizeExperiencesAppend(a: seq<ExperienceForm>, b: seq<ExperienceForm>)
    ensures NormalizeExperiences(a + b) == NormalizeExperiences(a) + NormalizeExperiences(b)
    decreases |a|
  {
    if a == [] {
      assert a + b == b;
    } else {
      var e := NormalizeExperience(a[0]);
      var head := if IsKept(e) then [e] else [];
      assert (a + b)[0] == a[0];
      assert (a + b)[1..] == a[1..] + b;
      assert NormalizeExperiences(a + b) == head + NormalizeExperiences(a[1..] + b);
      NormalizeExperiencesAppend(a[1..], b);
      assert NormalizeExperiences(a) == head + NormalizeExperiences(a[1..]);
      AppendAssoc(head, NormalizeExperiences(a[1..]), NormalizeExperiences(b));
    }
  }

  /** One group: kept, normalised, unless it is blank. */
  lemma NormalizeExperiencesSingle(g: ExperienceForm)
    ensures NormalizeExperiences([g]) == if IsBlankGroup(g) then [] else [NormalizeExperience(g)]
  {
    DroppedIffBlank(g);
    assert [g][1..] == [];
  }

  /** An experience with nothing but a non-blank project name survives, trimmed, with empty lists. */
  lemma ProjectNameOnlyIsKept(name: string)
    requires !IsBlank(name)
    ensures NormalizeExperiences([ExperienceForm(name, "", "", "", [""], [])])
            == [Experience(Trim(name), "", "", "", [], [], None)]
  {
    var g := ExperienceForm(name, "", "", "", [""], []);
    assert NormalizeExperience(g) == Experience(Trim(name), "", "", "", [], [], None) by {
      TrimOfTrimmed("");
      CleanSingle("");
      assert IsBlank("");
      CleanEmptyIff([]);
    }
    TrimEmptyIff(name);
    NormalizeExperiencesSingle(g);
  }


  /** Appending the blank group of `addExperience()` leaves the persisted document as it was. */
  lemma BlankGroupIsInvisible(v: CvFormValue)
    ensures Normalize(v.(experiences := v.experiences + [BLANK_GROUP])) == Normalize(v)
  {
    var w := v.(experiences := v.experiences + [BLANK_GROUP]);
    assert IsBlankGroup(BLANK_GROUP) by {
      assert BLANK_GROUP == ExperienceForm("", "", "", "", [""], []);
    }
    NormalizeExperiencesSingle(BLANK_GROUP);
    NormalizeExperiencesAppend(v.experiences, [BLANK_GROUP]);
    assert NormalizeExperiences(w.experiences) == NormalizeExperiences(v.experiences) + [];
    assert NormalizeExperiences(w.experiences) == NormalizeExperiences(v.experiences);
  }

  /** The empty bullet padded in by populating never reaches the store. */
  lemma PaddedBulletIsDropped(e: Experience)
    ensures NormalizeExperience(GroupOf(e)).bullets == Clean(e.bullets)
  {
    if |e.bullets| == 0 {
      CleanSingle("");
      CleanEmptyIff(e.bullets);
    }
  }

  lemma ExperienceRoundTrip(e: Experience)
    requires IsNormalExperience(e)
    ensures NormalizeExperience(GroupOf(e)) == e
  {
    TrimOfTrimmed(e.projectName);
    TrimOfTrimmed(e.role);
    TrimOfTrimmed(e.dates);
    TrimOfTrimmed(e.description);
    PaddedBulletIsDropped(e);
    CleanOfClean(e.bullets);
    CleanOfClean(e.technologies);
  }

  lemma {:induction false} ExperiencesRoundTrip(es: seq<Experience>)
    requires forall i :: 0 <= i < |es| ==> IsNormalExperience(es[i])
    ensures NormalizeExperiences(GroupsOf(es)) == es
    decreases |es|
  {
    if es != [] {
      var gs := GroupsOf(es);
      var rest := es[1..];
      assert es == [es[0]] + rest;
      assert gs[0] == GroupOf(es[0]);
      assert gs[1..] == GroupsOf(rest);
      ExperienceRoundTrip(es[0]);
      assert IsKept(NormalizeExperience(gs[0]));
      assert NormalizeExperiences(gs) == [es[0]] + NormalizeExperiences(GroupsOf(rest));
      forall i | 0 <= i < |rest| ensures IsNormalExperience(rest[i]) {
        assert rest[i] == es[i + 1];
      }
      ExperiencesRoundTrip(rest);
    }
  }

  /** Populating the form from a normalised document and persisting it writes the same document back. */
  lemma PopulatePersistRoundTrip(d: CvData)
    requires IsNormal(d)
    ensures Normalize(FormOf(d)) == d
  {
    TrimOfTrimmed(d.fullName);
    TrimOfTrimmed(d.position);
    TrimOfTrimmed(d.summary);
    CleanOfClean(d.languages);
    CleanOfClean(d.technologies);
    ExperiencesRoundTrip(d.experiences);
  }

  /** Persist, reload, persist: the second write equals the first. */
  lemma NormalizeIsStable(v: CvFormValue)
    ensures Normalize(FormOf(Normalize(v))) == Normalize(v)
  {
    PopulatePersistRoundTrip(Normalize(v));
  }

  class CvFormComponent {
    var fullName: string
    var position: string
    var summary: string
    var photoUrl: Option<string>
    var languages: seq<string>
    var technologies: seq<string>
    var experiences: seq<ExperienceForm>
    var isInitializing: bool
    const store: CvDataService

    ghost predicate Valid()
      reads this, store
    {
      store.Valid()
    }

    /** The four controls `patchValue` sets from `data`. */
    ghost predicate ScalarsFrom(data: CvData)
      reads this
    {
      fullName == data.fullName && position == data.position && summary == data.summary &&
      photoUrl == data.photoUrl
    }

    /** `cvForm.getRawValue()` */
    function RawValue(): CvFormValue
      reads this
    {
      CvFormValue(fullName, position, summary, photoUrl, languages, technologies, experiences)
    }

    /** What one `persistForm()` call in the current state publishes. */
    function Persisted(): seq<CvData>
      reads this
    {
      if isInitializing then [] else [Normalize(RawValue())]
    }

    constructor (store: CvDataService)
      requires store.Valid()
      ensures Valid() && this.store == store && !isInitializing
      ensures RawValue() == CvFormValue("", "", "", None, [], [], [])
    {
      this.store := store;
      fullName, position, summary, photoUrl := "", "", "", None;
      languages, technologies, experiences := [], [], [];
      isInitializing := false;
    }

    /** `ngOnInit()`: populate from the store's snapshot (the debounced subscription is not modelled). */
    method NgOnInit()
      requires Valid()
      modifies this, store
      ensures Valid() && !isInitializing
      ensures RawValue() == FormOf(old(store.Snapshot()))
      ensures store.history == old(store.history) + [Normalize(FormOf(old(store.Snapshot())))]
    {
      PopulateInitialData(store.Snapshot());
    }

    /** `persistForm()`: while initialising nothing is written; otherwise the normalised form value is. */
    method PersistForm()
      requires Valid()
      modifies store
      ensures Valid()
      ensures isInitializing ==> store.history == old(store.history)
      ensures !isInitializing ==> store.history == old(store.history) + [Normalize(RawValue())]
    {
      if isInitializing {
        return;
      }
      var normalized := Normalize(RawValue());
      store.Set(normalized);
    }

    /** `populateInitialData(data)`: rebuild every control from `data`, then persist once. */
    method PopulateInitialData(data: CvData)
      requires Valid()
      modifies this, store
      ensures Valid() && !isInitializing
      ensures RawValue() == FormOf(data)
      ensures store.history == old(store.history) + [Normalize(FormOf(data))]
    {
      isInitializing := true;
      fullName, position, summary, photoUrl := data.fullName, data.position, data.summary, data.photoUrl;

      languages := [];
      for i := 0 to |data.languages|
        invariant languages == data.languages[..i]
        invariant store.history == old(store.history)
        invariant isInitializing && ScalarsFrom(data)
      {
        languages := languages + [data.languages[i]];
      }

      technologies := [];
      for i := 0 to |data.technologies|
        invariant technologies == data.technologies[..i]
        invariant languages == data.languages
        invariant store.history == old(store.history)
        invariant isInitializing && ScalarsFrom(data)
      {
        technologies := technologies + [data.technologies[i]];
      }

      experiences := [];
      for i := 0 to |data.experiences|
        invariant experiences == GroupsOf(data.experiences[..i])
        invariant languages == data.languages && technologies == data.technologies
        invariant store.history == old(store.history)
        invariant isInitializing && ScalarsFrom(data)
      {
        assert data.experiences[..i + 1] == data.experiences[..i] + [data.experiences[i]];
        GroupsOfAppend(data.experiences[..i], data.experiences[i]);
        experiences := experiences + [GroupOf(data.experiences[i])];
      }
      assert data.experiences[..|data.experiences|] == data.experiences;

      isInitializing := false;
      PersistForm();
    }

    /** `addLanguage(initialValue)`: appends one entry; writes nothing itself. */
    method AddLanguage(initialValue: string)
      modifies this
      ensures RawValue() == old(RawValue()).(languages := old(languages) + [initialValue])
      ensures isInitializing == old(isInitializing)
    {
      languages := languages + [initialValue];
    }

    /** `removeLanguage(index)`: removes entry `index`, then persists. */
    method RemoveLanguage(index: nat)
      requires Valid()
      modifies this, store
      ensures Valid() && isInitializing == old(isInitializing)
      ensures RawValue() == old(RawValue()).(languages := RemoveAt(old(languages), index))
      ensures store.history == old(store.history) + Persisted()
    {
      languages := RemoveAt(languages, index);
      PersistForm();
    }

    /** `addTechnology(initialValue)`: appends one entry; writes nothing itself. */
    method AddTechnology(initialValue: string)
      modifies this
      ensures RawValue() == old(RawValue()).(technologies := old(technologies) + [initialValue])
      ensures isInitializing == old(isInitializing)
    {
      technologies := technologies + [initialValue];
    }

    /** `removeTechnology(index)`: removes entry `index`, then persists. */
    method RemoveTechnology(index: nat)
      requires Valid()
      modifies this, store
      ensures Valid() && isInitializing == old(isInitializing)
      ensures RawValue() == old(RawValue()).(technologies := RemoveAt(old(technologies), index))
      ensures store.history == old(store.history) + Persisted()
    {
      technologies := RemoveAt(technologies, index);
      PersistForm();
    }

    /** `addExperience(initial?)`: appends a group built from `initial` (or a blank one), then persists. */
    method AddExperience(initial: Option<Experience>)
      requires Valid()
      modifies this, store
      ensures Valid() && isInitializing == old(isInitializing)
      ensures var g := if initial.Some? then GroupOf(initial.value) else BLANK_GROUP;
              RawValue() == old(RawValue()).(experiences := old(experiences) + [g])
      ensures store.history == old(store.history) + Persisted()
    {
      var group := if initial.Some? then GroupOf(initial.value) else BLANK_GROUP;
      experiences := experiences + [group];
      PersistForm();
    }

    /** `removeExperience(index)`: removes group `index`, then persists. */
    method RemoveExperience(index: nat)
      requires Valid()
      modifies this, store
      ensures Valid() && isInitializing == old(isInitializing)
      ensures RawValue() == old(RawValue()).(experiences := RemoveAt(old(experiences), index))
      ensures store.history == old(store.history) + Persisted()
    {
      experiences := RemoveAt(experiences, index);
      PersistForm();
    }

    /**
     * `addBullet(experienceIndex)`: appends an empty bullet to that group. An
     * index past the end makes `at(...).controls` throw: `ok` is false and
     * nothing changes.
     */
    method AddBullet(experienceIndex: nat) returns (ok: bool)
      modifies this
      ensures ok <==> experienceIndex < |old(experiences)|
      ensures isInitializing == old(isInitializing)
      ensures ok ==> var g := old(experiences)[experienceIndex];
        RawValue() == old(RawValue()).(experiences := old(experiences)[experienceIndex := g.(bullets := g.bullets + [""])])
      ensures !ok ==> RawValue() == old(RawValue())
    {
      ok := experienceIndex < |experiences|;
      if !ok {
        return;
      }
      var g := experiences[experienceIndex];
      experiences := experiences[experienceIndex := g.(bullets := g.bullets + [""])];
    }

    /** `removeBullet(experienceIndex, bulletIndex)`: removes that bullet, then persists; a bad group index throws first. */
    method RemoveBullet(experienceIndex: nat, bulletIndex: nat) returns (ok: bool)
      requires Valid()
      modifies this, store
      ensures Valid() && isInitializing == old(isInitializing)
      ensures ok <==> experienceIndex < |old(experiences)|
      ensures ok ==> var g := old(experiences)[experienceIndex];
        RawValue() == old(RawValue()).(experiences := old(experiences)[experienceIndex := g.(bullets := RemoveAt(g.bullets, bulletIndex))])
      ensures ok ==> store.history == old(store.history) + Persisted()
      ensures !ok ==> RawValue() == old(RawValue()) && store.history == old(store.history)
    {
      ok := experienceIndex < |experiences|;
      if !ok {
        return;
      }
      var g := experiences[experienceIndex];
      experiences := experiences[experienceIndex := g.(bullets := RemoveAt(g.bullets, bulletIndex))];
      PersistForm();
    }

    /** `addExperienceTechnology(experienceIndex, initialValue)`: appends to that group's technologies; a bad index throws. */
    method AddExperienceTechnology(experienceIndex: nat, initialValue: string) returns (ok: bool)
      modifies this
      ensures ok <==> experienceIndex < |old(experiences)|
      ensures isInitializing == old(isInitializing)
      ensures ok ==> var g := old(experiences)[experienceIndex];
        RawValue() == old(RawValue()).(experiences := old(experiences)[experienceIndex := g.(technologies := g.technologies + [initialValue])])
      ensures !ok ==> RawValue() == old(RawValue())
    {
      ok := experienceIndex < |experiences|;
      if !ok {
        return;
      }
      var g := experiences[experienceIndex];
      experiences := experiences[experienceIndex := g.(technologies := g.technologies + [initialValue])];
    }

    /** `removeExperienceTechnology(experienceIndex, techIndex)`: removes that entry, then persists; a bad group index throws first. */
    method RemoveExperienceTechnology(experienceIndex: nat, techIndex: nat) returns (ok: bool)
      requires Valid()
      modifies this, store
      ensures Valid() && isInitializing == old(isInitializing)
      ensures ok <==> experienceIndex < |old(experiences)|
      ensures ok ==> var g := old(experiences)[experienceIndex];
        RawValue() == old(RawValue()).(experiences := old(experiences)[experienceIndex := g.(technologies := RemoveAt(g.technologies, techIndex))])
      ensures ok ==> store.history == old(store.history) + Persisted()
      ensures !ok ==> RawValue() == old(RawValue()) && store.history == old(store.history)
    {
      ok := experienceIndex < |experiences|;
      if !ok {
        return;
      }
      var g := experiences[experienceIndex];
      experiences := experiences[experienceIndex := g.(technologies := RemoveAt(g.technologies, techIndex))];
      PersistForm();
    }

    /** `clearPhoto()`: drops the photo, then persists. */
    method ClearPhoto()
      requires Valid()
      modifies this, store
      ensures Valid() && isInitializing == old(isInitializing)
      ensures RawValue() == old(RawValue()).(photoUrl := None)
      ensures store.history == old(store.history) + Persisted()
    {
      photoUrl := None;
      PersistForm();
    }
  }
}
