/** The CV document as the stores hold it (`Experience`, `CvData`). */
module CvModel {
  import opened Wrappers

  /** One work-history entry; `iconUrls` is the optional `iconUrls?` list. */
  datatype Experience = Experience(
    projectName: string,
    role: string,
    dates: string,
    description: string,
    bullets: seq<string>,
    technologies: seq<string>,
    iconUrls: Option<seq<string>>)

  /** The whole CV; `photoUrl` is `string | null`. */
  datatype CvData = CvData(
    fullName: string,
    position: string,
    summary: string,
    photoUrl: Option<string>,
    languages: seq<string>,
    technologies: seq<string>,
    experiences: seq<Experience>)
}
