# CV builder: a Dafny model of the editors, the stores and the preview

The CV builder is an Angular application. It has two editors, two in-memory stores and a preview.

- **The CV form** (`CvFormComponent`) edits a CV document.
  - The document has a name, a position, a summary, a photo, language and technology lists, and a list of experiences. Each experience has its own bullets and technologies.
  - Every edit ends in `persistForm`. It trims each string, drops empty list entries and drops blank experiences. It then writes the result to the document store (`CvDataService`).
  - While `populateInitialData` rebuilds the form, a guard flag (`isInitializing`) stops those writes.
- **The projects editor** (`ProjectsComponent`) edits a list of projects.
  - It keeps at least one project, and each project keeps at least one responsibility.
  - It stores its month dates as `"YYYY-MM"` strings in the section store (`CvService`) under the key `"projects"`.
  - A date adapter reads and writes `MM/YYYY` in the date inputs.
- **The preview** (`PreviewComponent`) reads the projects back out of the section store. It renders each period as `<start> - <end>`, with `Present` for an open end.

## How the model is organised

| file | contents |
|---|---|
| `wrappers.dfy` | `Option` |
| `text.dfy` | the JavaScript string operations the code relies on |
| `dates.dfy` | the part of `Date` the code uses |
| `cv_model.dfy` | the document types |
| `cv_data_service.dfy` | the document store |
| `cv_service.dfy` | the section store |
| `form_array.dfy` | `FormArray.removeAt` on sequences |
| `cv_form.dfy` | the CV form |
| `projects.dfy` | the projects editor and its date adapter |
| `preview.dfy` | the preview |

`text.dfy` covers `trim`, `parseInt(s, 10)`, `String(n)`, `split` and `padStart(2, '0')`. Its whitespace is ECMAScript's WhiteSpace and LineTerminator set.

**Dates.** A `Date` is the pair `(getFullYear(), getMonth() + 1)`, or `InvalidDate` for a date whose time value is NaN. The browser's parser may return any day and hour of a month, and in local time an ISO date such as `2024-03-01` may even fall in the previous month. That information is not lost: every consumer reads only `getFullYear`, `getMonth`, the validity of `getTime`, or a local month-and-year format, and `DateParser` returns exactly those. `Dates.MakeDate` models `new Date(year, monthIndex, 1)` with three behaviours written out:
- a year from 0 to 99 means 19xx;
- a month index of 12 or more, or a negative one, rolls into the next or previous years;
- a date outside the ±8.64e15 ms time-value range is invalid.

**Pure code becomes functions, stateful code becomes classes.**
- The normalisers, the date codec, the adapter and the preview are functions.
- Both stores, the CV form and the projects editor are classes whose fields the methods update.
- `populateInitialData` keeps its three `forEach` push loops as `for` loops.
- Each store's `BehaviorSubject` is a `history` field: the sequence of every value it has emitted, with the current value last. "Writes nothing" then means the history is unchanged, rather than merely that the value is the same.

**Host functions stay abstract.** These become function-typed parameters:
- the browser's `new Date(string)` parser (`DateParser`);
- the `NativeDateAdapter` fallbacks `super.parse` and `super.format`;
- `Intl.DateTimeFormat(...).format` on a valid date (`LongMonthYear`).

The code's own handling of what those functions return is modelled. This includes the Invalid Date check and the `catch` that returns the raw value.

**Errors become results.** `at(i).controls` or `at(i).get(...)` on an index past the end throws a `TypeError`. The methods that do this return `ok == false` in that case and change nothing. The model writes out the exact point at which the exception stops the method.

**Behaviour the proofs bring out:**
- A year from 0 to 99 does not survive the date adapter or `parseMonthYear`: the year comes back as 1900 + year (`Projects.AdapterTwoDigitYear`).
- A `"YYYY-MM"` string with month `13` reads as January of the next year, and month `00` as December of the year before (`Dates.MakeDate`).
- `persistForm` writes experiences without `iconUrls`. So persisting the initial document drops the icon list of its one experience.

## Model

| member | source | states |
|---|---|---|
| Text.Trim | src/app/components/cv-form/cv-form.component.ts:304-307 | `trim()` leaves no whitespace at either end and never lengthens the string |
| Text.TrimIsInfix | src/app/components/cv-form/cv-form.component.ts:322-324 | `trim()` keeps an infix of the input and cuts only whitespace off each end |
| Text.TrimOfTrimmed | src/app/components/cv-form/cv-form.component.ts:322-324 | a string with no whitespace at either end is its own trim |
| Text.TrimIdempotent | src/app/components/cv-form/cv-form.component.ts:322-324 | trimming twice is trimming once |
| Text.TrimEmptyIff | src/app/components/cv-form/cv-form.component.ts:311-319 | `s.trim()` is falsy exactly when every character of `s` is whitespace |
| Text.DropEmpty | src/app/components/cv-form/cv-form.component.ts:308 | `filter(Boolean)` keeps no empty string and never lengthens the list |
| Text.DropEmptyMembers | src/app/components/cv-form/cv-form.component.ts:308 | `filter(Boolean)` keeps a string exactly when it was in the list and is non-empty |
| Text.Clean | src/app/components/cv-form/cv-form.component.ts:326-327 | `map(trim).filter(Boolean)`: no entry is empty or padded, and the list is no longer than before |
| Text.CleanMembers | src/app/components/cv-form/cv-form.component.ts:326-327 | a string survives exactly when it is non-empty and is the trim of some entry |
| Text.CleanAppend | src/app/components/cv-form/cv-form.component.ts:326-327 | cleaning works entry by entry and keeps relative order: it distributes over concatenation |
| Text.CleanSingle | src/app/components/cv-form/cv-form.component.ts:326-327 | one entry survives, trimmed, exactly when it is not all whitespace |
| Text.CleanEmptyIff | src/app/components/cv-form/cv-form.component.ts:308-309 | a list cleans away to nothing exactly when every entry is blank |
| Text.CleanOfClean | src/app/components/cv-form/cv-form.component.ts:326-327 | an already clean list is left unchanged |
| Text.CleanIdempotent | src/app/components/cv-form/cv-form.component.ts:326-327 | cleaning twice is cleaning once |
| Text.NatToString | src/app/components/projects/projects.ts:316-318 | `String(n)` is a non-empty run of digits without a leading zero |
| Text.DigitsOfNatToString | src/app/components/projects/projects.ts:316-318 | the digits `String(n)` writes denote `n` |
| Text.NatToStringOfDigits | src/app/components/projects/projects.ts:289 | a digit run without a leading zero is exactly what `String` writes for its value |
| Text.NatToStringLength | src/app/components/projects/projects.ts:316 | `String(n)` has `len` digits exactly when `10^(len-1) <= n < 10^len` (or `n < 10` for one digit) |
| Text.FourDigitYear | src/app/components/projects/projects.ts:288 | `String(n)` has four characters exactly when `1000 <= n <= 9999` |
| Text.DigitsValueBound | src/app/components/preview/preview.ts:64-66 | a run of `k` digits denotes less than `10^k` |
| Text.ParseIntOfDigits | src/app/components/projects/projects.ts:289 | `parseInt` of a run of digits is the number they denote |
| Text.ParseIntOfIntToString | src/app/components/projects/projects.ts:51 | `parseInt(String(n), 10)` is `n` for every integer, negative ones included |
| Text.DigitPrefix | src/app/components/projects/projects.ts:300 | the longest leading run of digits that `parseInt` reads: a prefix, followed by a non-digit or the end |
| Text.ParseInt | src/app/components/projects/projects.ts:300 | `parseInt(part, 10)` of a blank string, or of one whose first non-whitespace character is neither a sign nor a digit, is NaN |
| Text.ParseIntSkipsWhitespace | src/app/components/projects/projects.ts:51 | `parseInt` ignores leading whitespace |
| Text.ParseIntIgnoresRest | src/app/components/projects/projects.ts:300 | `parseInt` reads the leading digits and ignores whatever non-digit text follows them |
| Text.SplitAt | src/app/components/projects/projects.ts:289 | splitting `a + sep + b`, where `a` has no separator, yields `a` and then the parts of `b` |
| Text.SplitWithout | src/app/components/projects/projects.ts:298-299 | a string with no separator splits into itself alone |
| Text.PadStart2 | src/app/components/projects/projects.ts:317 | `padStart(2, '0')` keeps the string as its suffix and fills up to two characters with `0` |
| Text.PaddedMonthDigits | src/app/components/projects/projects.ts:317 | a month 1..12 pads to two digits that read back as the month |
| Text.PaddedOfTwoDigits | src/app/components/projects/projects.ts:317 | two digits worth at least 1 are exactly what padding `String` of their value writes |
| Dates.MakeDate | src/app/components/projects/projects.ts:290 | `new Date(y, mi, 1)` is valid exactly when in range, and then has month 1..12 and lies `mi` months after January of `FullYear(y)` |
| Dates.MakeDateOfMonth | src/app/components/projects/projects.ts:290 | for a year outside 0..99, `new Date(y, m - 1, 1)` is month `m` of year `y` |
| Dates.MakeDateTwoDigitYear | src/app/components/projects/projects.ts:305 | a year 0..99 becomes 1900 + year |
| Dates.MakeDateMonthOverflow | src/app/components/projects/projects.ts:290 | month index 12 is January of the following year |
| FormArrays.RemoveAt | src/app/components/cv-form/cv-form.component.ts:105 | `removeAt(i)` deletes exactly entry `i` and keeps the others in order; past the end it removes nothing |
| FormArrays.RemoveAtKeepsEntries | src/app/components/cv-form/cv-form.component.ts:164 | every entry left after `removeAt` was there before |
| CvDataStore.Merge | src/app/services/cv-data.service.ts:79-81 | `{ ...s, ...p }`: each field present in `p` is overwritten, and every other field keeps its value |
| CvDataStore.MergeNoFields | src/app/services/cv-data.service.ts:79-81 | `update({})` leaves the value unchanged |
| CvDataStore.MergeAllFields | src/app/services/cv-data.service.ts:79-81 | merging a partial that lists every field replaces the value wholesale |
| CvDataStore.MergeIdempotent | src/app/services/cv-data.service.ts:79-81 | updating twice with the same partial is updating once |
| CvDataStore.MergeMerge | src/app/services/cv-data.service.ts:79-81 | two updates in a row equal one update with the combined partial, the later field winning |
| CvDataStore.CvDataService.constructor | src/app/services/cv-data.service.ts:72 | the subject starts with `INITIAL_DATA` as its only value |
| CvDataStore.CvDataService.Update | src/app/services/cv-data.service.ts:79-81 | publishes exactly one value, the merge of the old snapshot with the partial |
| CvDataStore.CvDataService.Set | src/app/services/cv-data.service.ts:83-89 | publishes exactly one value equal to `data`, whatever was there before; so `set(d); set(d)` leaves the snapshot at `d` |
| SectionStore.WithSection | src/app/components/services/cv.service.ts:10-11 | `{ ...m, [s]: d }`: `s` maps to `d`, every other key keeps its value, and the keys grow by `s` only |
| SectionStore.LastWriteWins | src/app/components/services/cv.service.ts:11 | two writes to the same section equal the last one |
| SectionStore.WithSectionSize | src/app/components/services/cv.service.ts:11 | a write adds at most one key, and none when the section exists |
| SectionStore.CvService.constructor | src/app/components/services/cv.service.ts:6 | the store starts as the empty object |
| SectionStore.CvService.UpdateSection | src/app/components/services/cv.service.ts:9-12 | publishes exactly one value: the old one with `section` set to `data` and every other key unchanged |
| SectionStore.CvService.GetCvData | src/app/components/services/cv.service.ts:14-16 | returns the current value and publishes nothing |
| CvForm.GroupOf | src/app/components/cv-form/cv-form.component.ts:252-289 | the group built from an experience copies its four scalars and its technologies, and always has at least one bullet |
| CvForm.GroupsOf | src/app/components/cv-form/cv-form.component.ts:251-289 | one group per experience (each entry is stated by `CvForm.GroupsOfAt`) |
| CvForm.GroupsOfAt | src/app/components/cv-form/cv-form.component.ts:252-289 | group `i` is the group of experience `i` |
| CvForm.GroupsOfAppend | src/app/components/cv-form/cv-form.component.ts:288 | one more experience pushes exactly its group at the end |
| CvForm.FormOf | src/app/components/cv-form/cv-form.component.ts:223-294 | the populated raw value copies the four scalars and has one group per experience (the lists are stated by `CvForm.PopulatedShape`) |
| CvForm.PopulatedShape | src/app/components/cv-form/cv-form.component.ts:235-289 | after populating, the language and technology lists equal the document's and there is one group per experience; an experience without bullets shows exactly one `''` bullet |
| CvForm.NormalizeExperience | src/app/components/cv-form/cv-form.component.ts:303-310 | a normalised experience has four trimmed scalars, clean bullets and technologies, and no icon URLs |
| CvForm.NormalizeExperiences | src/app/components/cv-form/cv-form.component.ts:302-319 | normalising never adds experiences |
| CvForm.NormalizeExperiencesNormal | src/app/components/cv-form/cv-form.component.ts:302-319 | every experience kept is trimmed, clean and not blank |
| CvForm.DroppedIffBlank | src/app/components/cv-form/cv-form.component.ts:311-319 | an experience is dropped exactly when all four scalars and every bullet and technology are whitespace |
| CvForm.NormalizeExperiencesAppend | src/app/components/cv-form/cv-form.component.ts:302-319 | normalisation works group by group and keeps the order of the groups it keeps |
| CvForm.NormalizeExperiencesSingle | src/app/components/cv-form/cv-form.component.ts:311-319 | a single group is kept, normalised, unless it is blank |
| CvForm.ProjectNameOnlyIsKept | src/app/components/cv-form/cv-form.component.ts:311-319 | an experience whose only non-blank field is its project name is kept, with that name trimmed and empty lists |
| CvForm.Normalize | src/app/components/cv-form/cv-form.component.ts:321-329 | the written document is normal (trimmed, clean, no blank experience), keeps `photoUrl` unchanged, and no list grows |
| CvForm.BlankGroupIsInvisible | src/app/components/cv-form/cv-form.component.ts:123-161 | the blank group that `addExperience()` appends does not change the persisted document |
| CvForm.PaddedBulletIsDropped | src/app/components/cv-form/cv-form.component.ts:271 | the `''` bullet added when populating never reaches the store: the persisted bullets are the cleaned original bullets |
| CvForm.ExperienceRoundTrip | src/app/components/cv-form/cv-form.component.ts:252-289 | a normal experience, loaded into a group and normalised, comes back unchanged |
| CvForm.ExperiencesRoundTrip | src/app/components/cv-form/cv-form.component.ts:252-289 | the same holds for a whole list of normal experiences |
| CvForm.PopulatePersistRoundTrip | src/app/components/cv-form/cv-form.component.ts:223-294 | populating from a normal document and persisting writes that document back |
| CvForm.NormalizeIsStable | src/app/components/cv-form/cv-form.component.ts:296-332 | persist, reload, persist: the second write equals the first |
| CvForm.CvFormComponent.constructor | src/app/components/cv-form/cv-form.component.ts:62-81 | the form starts empty and not initialising |
| CvForm.CvFormComponent.NgOnInit | src/app/components/cv-form/cv-form.component.ts:87-93 | the form becomes the store's snapshot, and exactly its normalisation is written |
| CvForm.CvFormComponent.PersistForm | src/app/components/cv-form/cv-form.component.ts:296-332 | while initialising nothing is written; otherwise exactly one write, of the normalised raw value |
| CvForm.CvFormComponent.PopulateInitialData | src/app/components/cv-form/cv-form.component.ts:223-294 | the form equals `FormOf(data)`, the guard ends false, and the loops write nothing; the single final write is `Normalize(FormOf(data))` |
| CvForm.CvFormComponent.AddLanguage | src/app/components/cv-form/cv-form.component.ts:95-102 | appends one language at the end and changes nothing else; it makes no direct persist call (the debounced write is not modelled, see Left out) |
| CvForm.CvFormComponent.RemoveLanguage | src/app/components/cv-form/cv-form.component.ts:104-107 | removes exactly entry `index`, changes nothing else, then persists |
| CvForm.CvFormComponent.AddTechnology | src/app/components/cv-form/cv-form.component.ts:109-116 | appends one technology at the end and changes nothing else; it makes no direct persist call (the debounced write is not modelled, see Left out) |
| CvForm.CvFormComponent.RemoveTechnology | src/app/components/cv-form/cv-form.component.ts:118-121 | removes exactly entry `index`, changes nothing else, then persists |
| CvForm.CvFormComponent.AddExperience | src/app/components/cv-form/cv-form.component.ts:123-161 | appends the group of `initial`, or one with bullets `['']` and technologies `[]`, then persists |
| CvForm.CvFormComponent.RemoveExperience | src/app/components/cv-form/cv-form.component.ts:163-166 | removes exactly group `index`, changes nothing else, then persists |
| CvForm.CvFormComponent.AddBullet | src/app/components/cv-form/cv-form.component.ts:168-176 | appends `''` to that group's bullets and makes no direct persist call (the debounced write is not modelled, see Left out); a bad index changes nothing |
| CvForm.CvFormComponent.RemoveBullet | src/app/components/cv-form/cv-form.component.ts:178-182 | removes exactly that bullet, then persists; a bad group index changes and writes nothing |
| CvForm.CvFormComponent.AddExperienceTechnology | src/app/components/cv-form/cv-form.component.ts:184-192 | appends to that group's technologies and makes no direct persist call (the debounced write is not modelled, see Left out); a bad index changes nothing |
| CvForm.CvFormComponent.RemoveExperienceTechnology | src/app/components/cv-form/cv-form.component.ts:194-198 | removes exactly that technology, then persists; a bad group index changes and writes nothing |
| CvForm.CvFormComponent.ClearPhoto | src/app/components/cv-form/cv-form.component.ts:216-219 | sets the photo to null, changes nothing else, then persists |
| Projects.MonthYearParts | src/app/components/projects/projects.ts:288-289 | a `^\d{4}-\d{2}$` string splits on `-` into its year and month, and `parseInt` reads each |
| Projects.ToMonthYearString | src/app/components/projects/projects.ts:312-319 | null exactly for no date or an Invalid Date |
| Projects.ToMonthYearStringShape | src/app/components/projects/projects.ts:316-318 | a four-digit year and month 1..12 give a canonical `"YYYY-MM"` string holding that year and that month, zero-padded |
| Projects.PickMonthYear | src/app/components/projects/projects.ts:300-306 | both numbers are required; a first number above 12 is the year, otherwise it is the month |
| Projects.ParseMonthYear | src/app/components/projects/projects.ts:283-310 | null for no or empty value; a `^\d{4}-\d{2}$` string is `new Date(year, month - 1, 1)`; otherwise the browser's date if it is valid, else the two-number fallback |
| Projects.ParseMonthYearNoSeparator | src/app/components/projects/projects.ts:298-309 | a value with no `/` or `-` that the browser cannot parse gives null |
| Projects.DateRoundTrip | src/app/components/projects/projects.ts:288-291 | `parseMonthYear(toMonthYearString(year, month))` is `(year, month)` for a four-digit year and 1 <= month <= 12 |
| Projects.MonthYearStringRoundTrip | src/app/components/projects/projects.ts:312-319 | a canonical `"YYYY-MM"` string parsed and written back is unchanged |
| Projects.CanonicalYear | src/app/components/projects/projects.ts:316 | four digits without a leading zero are a year 1000..9999 that `String` writes back unchanged |
| Projects.ReadCanonical | src/app/components/projects/projects.ts:288-291 | a canonical string parses to the year and month it spells |
| Projects.WriteCanonical | src/app/components/projects/projects.ts:312-319 | that year and month are written back as the same string |
| Projects.DateControlOf | src/app/components/projects/projects.ts:144-150 | a missing or empty stored date gives no date; a `"YYYY-MM"` one gives `new Date(year, month - 1, 1)` |
| Projects.Controls | src/app/components/projects/projects.ts:155-163 | one control per item, holding that item |
| Projects.GroupOf | src/app/components/projects/projects.ts:134-166 | the group `addProject` builds always has at least one responsibility |
| Projects.GroupsOf | src/app/components/projects/projects.ts:124 | one group per stored project, in order |
| Projects.InitialGroups | src/app/components/projects/projects.ts:121-127 | `ngOnInit` adds at least one group, each with at least one responsibility |
| Projects.OrEmpty | src/app/components/projects/projects.ts:274 | `item ?? ''` entry by entry |
| Projects.NormalizeProject | src/app/components/projects/projects.ts:265-281 | name, role and description trimmed; both lists clean; photo passed through, with a missing photo becoming null |
| Projects.CleanOrEmptyIff | src/app/components/projects/projects.ts:273-278 | a list control normalises to `[]` exactly when each entry is null or whitespace |
| Projects.NormalizeDropsNullAndBlank | src/app/components/projects/projects.ts:273-278 | responsibilities and technologies are each empty after normalising exactly when every entry was null or blank |
| Projects.NormalizeProjects | src/app/components/projects/projects.ts:261 | one stored project per group |
| Projects.DateControlRoundTrip | src/app/components/projects/projects.ts:145 | a stored canonical date (or null) survives being loaded into a date control and written back |
| Projects.ProjectRoundTrip | src/app/components/projects/projects.ts:265-281 | a canonical stored project loaded into a group and normalised comes back unchanged |
| Projects.BlankProjectNormalized | src/app/components/projects/projects.ts:134-166 | the blank project persists with empty strings, null dates and empty lists |
| Projects.ReadSlashed | src/app/components/projects/projects.ts:50-55 | a date exactly when the text has two parts around `/` that both read as numbers, and then the first is the month and the second the year |
| Projects.StoredProjects | src/app/components/projects/projects.ts:121 | `getCvData()?.projects ?? []`: the `"projects"` section, or none when the key is missing |
| Projects.AdapterParse | src/app/components/projects/projects.ts:49-57 | a non-empty `month/year` with both numbers becomes `new Date(year, month - 1, 1)`; anything else goes to the native parser |
| Projects.ReadSlashedWritten | src/app/components/projects/projects.ts:51-53 | the `MM/YYYY` text the adapter writes reads back as `new Date(year, month - 1, 1)` |
| Projects.SlashParts | src/app/components/projects/projects.ts:51 | that text splits on `/` into the month and the year |
| Projects.AdapterRoundTrip | src/app/components/projects/projects.ts:59-65 | the adapter reads back what it writes into a date input, for a year outside 0..99 |
| Projects.AdapterTwoDigitYear | src/app/components/projects/projects.ts:53 | a year 0..99 written by the adapter comes back as 1900 + year |
| Projects.ProjectsComponent.constructor | src/app/components/projects/projects.ts:112-114 | the editor starts with no project groups |
| Projects.ProjectsComponent.PersistProjects | src/app/components/projects/projects.ts:260-263 | publishes exactly one value: the store with `"projects"` set to the normalised groups |
| Projects.ProjectsComponent.AddProject | src/app/components/projects/projects.ts:134-170 | appends the group of `project`, or the blank one, then persists; at least one responsibility per group is kept |
| Projects.ProjectsComponent.NgOnInit | src/app/components/projects/projects.ts:120-132 | adds one group per stored project, or one blank group when there is none; the store ends at the normalised groups; the editor ends seeded |
| Projects.ProjectsComponent.AddEach | src/app/components/projects/projects.ts:124 | the groups of all stored projects are appended in order, and the last write wins |
| Projects.ProjectsComponent.RemoveProject | src/app/components/projects/projects.ts:172-179 | removes exactly that group; an emptied list gets one blank group; at least one project remains; exactly one write either way |
| Projects.ProjectsComponent.AddResponsibility | src/app/components/projects/projects.ts:181-183 | appends `''` to that project's responsibilities; a bad index changes nothing |
| Projects.ProjectsComponent.RemoveResponsibility | src/app/components/projects/projects.ts:185-191 | removes exactly that responsibility; removing the last leaves a single `''`; the list is never empty |
| Projects.ProjectsComponent.AddTechnology | src/app/components/projects/projects.ts:193-199 | appends the trimmed chip text only when it is non-empty; otherwise the list is unchanged |
| Projects.ProjectsComponent.RemoveTechnology | src/app/components/projects/projects.ts:201-203 | removes exactly that chip, changes nothing else |
| Projects.ProjectsComponent.SetDate | src/app/components/projects/projects.ts:205-214 | sets exactly the chosen date control of that project |
| Projects.ProjectsComponent.ClearPhoto | src/app/components/projects/projects.ts:234-239 | sets that project's photo to null, then persists; a bad index changes and writes nothing |
| Preview.PreviewProjects | src/app/components/preview/preview.ts:32-35 | `[]` when the store has no `"projects"` key, otherwise that section |
| Preview.PreviewShowsPersisted | src/app/components/preview/preview.ts:32-35 | after the editor persists, the preview shows exactly its normalised projects |
| Preview.PreviewParse | src/app/components/preview/preview.ts:63-71 | a `^\d{4}-\d{2}$` string is `new Date(year, month - 1, 1)`; otherwise the browser's date when valid, else null |
| Preview.MonthYearIsValid | src/app/components/preview/preview.ts:64-66 | every `^\d{4}-\d{2}$` string denotes a valid date |
| Preview.ParsersAgree | src/app/components/preview/preview.ts:63-71 | wherever the preview's parser reads a date, the editor's reads the same one; elsewhere the editor falls back to splitting |
| Preview.FormatMonthYear | src/app/components/preview/preview.ts:46-61 | `''` for no or empty value; the value itself when it does not parse or is an Invalid Date; otherwise the long form |
| Preview.FormatMonthYearNonEmpty | src/app/components/preview/preview.ts:46-61 | a non-empty value never formats to `''` when the long form is never empty |
| Preview.StoredDateRendersLong | src/app/components/preview/preview.ts:51-57 | a stored `"YYYY-MM"` value is always shown in long form, never raw |
| Preview.EditorDateRendersLong | src/app/components/preview/preview.ts:46-61 | a month the editor holds, written and then formatted, renders as that same month |
| Preview.PeriodEnd | src/app/components/preview/preview.ts:42 | `Present` for no or empty end date, otherwise the formatted end |
| Preview.FormatProjectPeriod | src/app/components/preview/preview.ts:40-44 | `start - end` when both show; the end when the start is empty; the start when the end is empty |
| Preview.OpenEndedPeriod | src/app/components/preview/preview.ts:42-43 | no end date gives `<start> - Present`, or `Present` alone |
| Preview.SavedPeriodRendersLong | src/app/components/preview/preview.ts:40-44 | a project saved with both months shows `<long start> - <long end>` |

## Left out

- The Angular and RxJS machinery is not modelled:
  - `FormBuilder`, `valueChanges` with `debounceTime(200)`, `emitEvent`, `markAsPristine`, `markAsDirty`, signals and `takeUntilDestroyed`. Each edit is followed by the explicit `persistForm`/`persistProjects` call that the source makes, or by none.
  - The subscriptions of `cvData$` and `currentCv$`. The `history` fields record what those subscribers would see.
- Declarative `Validators` (required, maxLength) are not modelled. They do not gate either persist call.
  - For the same reason `ProjectsComponent.onSubmit` (src/app/components/projects/projects.ts:241-247) is left out: it only chooses between a persist and `markAllAsTouched`.
- Photo upload through `FileReader` in both editors is asynchronous browser I/O and is not modelled. Only `clearPhoto` is.
- `event.chipInput?.clear()` and `datepicker.close()` act on widgets only.
- PDF export, src/app/app.ts and src/app/components/personal-info/personal-info.ts are not part of this model.
- The browser's `new Date(string)`, `Intl.DateTimeFormat(...).format`, and the `super.parse`/`super.format` of `NativeDateAdapter` are host functions and are parameters without a definition.
- Time zones, hours and days are not modelled. Every consumer of a date reads only its local year and month (`getFullYear`, `getMonth`), whether its time value is NaN, or a local month-and-year format. The browser's parser, a parameter, returns exactly those, so a date is a (year, month) pair.
- Projects.AdapterFormat: a `null` date with the `MM/YYYY` format is not modelled, since the function's type is a non-null `Date`. The row for the adapter's format is `Projects.AdapterRoundTrip`. `AdapterFormat` itself has no contract of its own.
- `CvDataService.set`: `structuredClone` versus the JSON copy is not modelled. With value semantics both are plain copies.
- `Partial<CvData>` keys present with the value `undefined` are not modelled. A field is either present with a value or absent.
- `CvService` holds `any`: section values have a type parameter. The preview's `PreviewProject` is the same record as `StoredProject`.
- Indices are natural numbers. A negative index, which `removeAt` and `at` count from the end, is not modelled.
- Text.ParseInt: does not model `parseInt`'s loss of precision above 2^53, and Text.IntToString does not model exponent notation past 1e21, because integers here are unbounded.
- Text.IntToString: its own contract states only that the result is non-empty. What it writes is stated by `Text.NatToString` and `Text.ParseIntOfIntToString`.
- Text.Split: its own contract states only that there is at least one part. The parts are stated by `Text.SplitAt` and `Text.SplitWithout` for the inputs the code gives it.
- Projects.NormalizeProjects: its contract states only the length. Each entry is `NormalizeProject` of its group by definition, and the properties of that function are proved separately.
