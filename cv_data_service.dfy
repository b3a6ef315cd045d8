/**
 * `CvDataService`: the document store behind the CV form. The
 * `BehaviorSubject` is modelled by the sequence of every value it has held;
 * its current value is the last one.
 */
module CvDataStore {
  import opened Wrappers
  import opened CvModel

  /** The document the store starts with. */
  const INITIAL_DATA: CvData := CvData(
    "New Developer",
    "Front-End Developer",
    "FullStack React&Node.Js developer with almost 6 years of experience.",
    None,
    ["Ukrainian - Native", "English - Upper-Intermediate"],
    ["JavaScript", "TypeScript", "HTML", "CSS", "ReactJs", "Redux", "MaterialUI", "Next.js",
     "Webpack", "SASS", "Less", "Bootstrap", "React Native", "Node.js", "Express.js", "NestJS",
     "MongoDB", "MySQL", "PostgreSQL", "Firebase", "REST APIs", "Websockets", "AWS", "GraphQL",
     "Git", "GitHub", "GitLab", "Bitbucket", "Jira", "Docker", "Confluence", "Azure"],
    [Experience(
       "Project name",
       "Full Stack Developer",
       "March 2024 \U{2013} June 2025",
       "Social media platform that accumulates all those who are involved in video content creation: "
       + "motion designers, creatives, 3d modelers, VFX specialists and many others. The main goal is to "
       + "share video content and view other users\U{2019} content. Create own resume, find a job, studio, "
       + "team or interesting projects.",
       ["Platform Architecture and Backend Development: Design and implement a scalable backend "
        + "infrastructure to support user profiles;",
        "Video Upload and Streaming Optimization;",
        "User Authentication and Profile Management;",
        "Reduced time-to-market by 30% through efficient project setup and streamlined development workflows;",
        "Search and Matching Algorithms: Implement advanced search functionalities to help users find jobs, "
        + "studios, teams, or collaborators. Develop algorithms that match users based on skills, job "
        + "requirements, or project needs, improving the platform\U{2019}s networking capabilities."],
       ["React", "Node.js", "AWS", "MongoDB", "TypeScript", "S3", "FFmpeg"],
       Some(["assets/icons/react.svg", "assets/icons/aws.svg", "assets/icons/nodejs.svg",
             "assets/icons/typescript.svg"]))])

  /** `Partial<CvData>`: `Some` marks a field present in the partial object. */
  datatype CvPartial = CvPartial(
    fullName: Option<string>,
    position: Option<string>,
    summary: Option<string>,
    photoUrl: Option<Option<string>>,
    languages: Option<seq<string>>,
    technologies: Option<seq<string>>,
    experiences: Option<seq<Experience>>)

  /** `{}`: a partial with no field present. */
  const NO_FIELDS: CvPartial := CvPartial(None, None, None, None, None, None, None)

  /** The partial that lists every field of `d`. */
  function AllFields(d: CvData): CvPartial {
    CvPartial(Some(d.fullName), Some(d.position), Some(d.summary), Some(d.photoUrl),
              Some(d.languages), Some(d.technologies), Some(d.experiences))
  }

  /** `{ ...s, ...p }`: every field present in `p` overrides the one in `s`. */
  function Merge(s: CvData, p: CvPartial): (r: CvData)
    ensures r.fullName == p.fullName.GetOr(s.fullName)
    ensures r.position == p.position.GetOr(s.position)
    ensures r.summary == p.summary.GetOr(s.summary)
    ensures r.photoUrl == p.photoUrl.GetOr(s.photoUrl)
    ensures r.languages == p.languages.GetOr(s.languages)
    ensures r.technologies == p.technologies.GetOr(s.technologies)
    ensures r.experiences == p.experiences.GetOr(s.experiences)
  {
    CvData(p.fullName.GetOr(s.fullName), p.position.GetOr(s.position), p.summary.GetOr(s.summary),
           p.photoUrl.GetOr(s.photoUrl), p.languages.GetOr(s.languages),
           p.technologies.GetOr(s.technologies), p.experiences.GetOr(s.experiences))
  }

  /** Merging the empty partial changes nothing. */
  lemma MergeNoFields(s: CvData)
    ensures Merge(s, NO_FIELDS) == s
  {
  }

  /** Merging a partial that lists every field is a wholesale replace. */
  lemma MergeAllFields(s: CvData, d: CvData)
    ensures Merge(s, AllFields(d)) == d
  {
  }

  /** Merging the same partial twice is merging it once. */
  lemma MergeIdempotent(s: CvData, p: CvPartial)
    ensures Merge(Merge(s, p), p) == Merge(s, p)
  {
  }

  /** Fields present in the partial: the later of two partials wins. */
  function Combine(p: CvPartial, q: CvPartial): CvPartial {
    CvPartial(
      if q.fullName.Some? then q.fullName else p.fullName,
      if q.position.Some? then q.position else p.position,
      if q.summary.Some? then q.summary else p.summary,
      if q.photoUrl.Some? then q.photoUrl else p.photoUrl,
      if q.languages.Some? then q.languages else p.languages,
      if q.technologies.Some? then q.technologies else p.technologies,
      if q.experiences.Some? then q.experiences else p.experiences)
  }

  /** Two updates in a row are one update with the combined partial. */
  lemma MergeMerge(s: CvData, p: CvPartial, q: CvPartial)
    ensures Merge(Merge(s, p), q) == Merge(s, Combine(p, q))
  {
  }

  class CvDataService {
    /** Every value `cvDataSubject` has held, oldest first; subscribers of `cvData$` see each of them. */
    var history: seq<CvData>

    ghost predicate Valid()
      reads this
    {
      |history| > 0
    }

    /** `snapshot`: the subject's current value. */
    function Snapshot(): CvData
      reads this
      requires Valid()
    {
      history[|history| - 1]
    }

    constructor ()
      ensures Valid()
      ensures history == [INITIAL_DATA] && Snapshot() == INITIAL_DATA
    {
      history := [INITIAL_DATA];
    }

    /** `update(partial)`: publishes the merge of the current value with `partial`. */
    method Update(partial: CvPartial)
      requires Valid()
      modifies this
      ensures Valid()
      ensures history == old(history) + [Merge(old(Snapshot()), partial)]
      ensures Snapshot() == Merge(old(Snapshot()), partial)
    {
      history := history + [Merge(Snapshot(), partial)];
    }

    /** `set(data)`: publishes a copy of `data`, whatever was there before. */
    method Set(data: CvData)
      requires Valid()
      modifies this
      ensures Valid()
      ensures history == old(history) + [data]
      ensures Snapshot() == data
    {
      history := history + [data];
    }
  }
}
