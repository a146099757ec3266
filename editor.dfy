/** The résumé editor's state and its updaters. Every updater builds the
    next state from the previous one with spreads, `map` and `filter`; the
    remove buttons are shown only for lists with more than one entry. */
module Editor {

  // ---------------------------------------------------------------- records

  datatype PersonalField = Name | Phone | Email | Linkedin | Github | Website

  datatype PersonalInfo = PersonalInfo(
    name: string, phone: string, email: string, linkedin: string, github: string, website: string)

  function PersonalGet(p: PersonalInfo, f: PersonalField): string {
    match f
    case Name => p.name
    case Phone => p.phone
    case Email => p.email
    case Linkedin => p.linkedin
    case Github => p.github
    case Website => p.website
  }

  /** `{ ...p, [f]: v }` */
  function PersonalSet(p: PersonalInfo, f: PersonalField, v: string): (r: PersonalInfo)
    ensures forall g :: PersonalGet(r, g) == if g == f then v else PersonalGet(p, g)
  {
    match f
    case Name => p.(name := v)
    case Phone => p.(phone := v)
    case Email => p.(email := v)
    case Linkedin => p.(linkedin := v)
    case Github => p.(github := v)
    case Website => p.(website := v)
  }

  datatype EducationField = Institution | Location | Degree | Dates | Gpa | Honors

  datatype Education = Education(
    institution: string, location: string, degree: string, dates: string, gpa: string, honors: string)

  function EducationGet(e: Education, f: EducationField): string {
    match f
    case Institution => e.institution
    case Location => e.location
    case Degree => e.degree
    case Dates => e.dates
    case Gpa => e.gpa
    case Honors => e.honors
  }

  /** `{ ...e, [f]: v }` */
  function EducationSet(e: Education, f: EducationField, v: string): (r: Education)
    ensures forall g :: EducationGet(r, g) == if g == f then v else EducationGet(e, g)
  {
    match f
    case Institution => e.(institution := v)
    case Location => e.(location := v)
    case Degree => e.(degree := v)
    case Dates => e.(dates := v)
    case Gpa => e.(gpa := v)
    case Honors => e.(honors := v)
  }

  /** The text fields of an experience entry; its responsibilities have
      their own updaters. */
  datatype ExperienceField = Title | Company | Location | Dates

  datatype Experience = Experience(
    title: string, company: string, location: string, dates: string, responsibilities: seq<string>)

  function ExperienceGet(e: Experience, f: ExperienceField): string {
    match f
    case Title => e.title
    case Company => e.company
    case Location => e.location
    case Dates => e.dates
  }

  /** `{ ...e, [f]: v }` */
  function ExperienceSet(e: Experience, f: ExperienceField, v: string): (r: Experience)
    ensures r.responsibilities == e.responsibilities
    ensures forall g :: ExperienceGet(r, g) == if g == f then v else ExperienceGet(e, g)
  {
    match f
    case Title => e.(title := v)
    case Company => e.(company := v)
    case Location => e.(location := v)
    case Dates => e.(dates := v)
  }

  /** The text fields of a project; its description has its own updaters. */
  datatype ProjectField = Name | Technologies | Dates

  datatype Project = Project(name: string, technologies: string, dates: string, description: seq<string>)

  function ProjectGet(p: Project, f: ProjectField): string {
    match f
    case Name => p.name
    case Technologies => p.technologies
    case Dates => p.dates
  }

  /** `{ ...p, [f]: v }` */
  function ProjectSet(p: Project, f: ProjectField, v: string): (r: Project)
    ensures r.description == p.description
    ensures forall g :: ProjectGet(r, g) == if g == f then v else ProjectGet(p, g)
  {
    match f
    case Name => p.(name := v)
    case Technologies => p.(technologies := v)
    case Dates => p.(dates := v)
  }

  datatype SkillsField = Languages | Frameworks | DeveloperTools | Libraries | SoftSkills | LanguagesSpoken

  datatype Skills = Skills(
    languages: string, frameworks: string, developerTools: string, libraries: string,
    softSkills: string, languagesSpoken: string)

  function SkillsGet(s: Skills, f: SkillsField): string {
    match f
    case Languages => s.languages
    case Frameworks => s.frameworks
    case DeveloperTools => s.developerTools
    case Libraries => s.libraries
    case SoftSkills => s.softSkills
    case LanguagesSpoken => s.languagesSpoken
  }

  /** `{ ...s, [f]: v }` */
  function SkillsSet(s: Skills, f: SkillsField, v: string): (r: Skills)
    ensures forall g :: SkillsGet(r, g) == if g == f then v else SkillsGet(s, g)
  {
    match f
    case Languages => s.(languages := v)
    case Frameworks => s.(frameworks := v)
    case DeveloperTools => s.(developerTools := v)
    case Libraries => s.(libraries := v)
    case SoftSkills => s.(softSkills := v)
    case LanguagesSpoken => s.(languagesSpoken := v)
  }

  datatype CertificationField = Name | Issuer | Date | CredentialId

  datatype Certification = Certification(name: string, issuer: string, date: string, credentialId: string)

  function CertificationGet(c: Certification, f: CertificationField): string {
    match f
    case Name => c.name
    case Issuer => c.issuer
    case Date => c.date
    case CredentialId => c.credentialId
  }

  /** `{ ...c, [f]: v }` */
  function CertificationSet(c: Certification, f: CertificationField, v: string): (r: Certification)
    ensures forall g :: CertificationGet(r, g) == if g == f then v else CertificationGet(c, g)
  {
    match f
    case Name => c.(name := v)
    case Issuer => c.(issuer := v)
    case Date => c.(date := v)
    case CredentialId => c.(credentialId := v)
  }

  datatype ResumeData = ResumeData(
    personalInfo: PersonalInfo, education: seq<Education>, experience: seq<Experience>,
    projects: seq<Project>, skills: Skills, certifications: seq<Certification>)

  const BlankEducation := Education("", "", "", "", "", "")
  const BlankExperience := Experience("", "", "", "", [""])
  const BlankProject := Project("", "", "", [""])
  const BlankCertification := Certification("", "", "", "")

  /** The state the editor starts in: one blank entry in every list. */
  const Initial := ResumeData(
    PersonalInfo("", "", "", "", "", ""), [BlankEducation], [BlankExperience], [BlankProject],
    Skills("", "", "", "", "", ""), [BlankCertification])

  // ------------------------------------------------------------ list shapes

  /** `ys` is `xs` with at most the entry at `index` different. */
  ghost predicate SameExceptAt<T>(xs: seq<T>, ys: seq<T>, index: int) {
    |ys| == |xs| && forall i :: 0 <= i < |xs| && i != index ==> ys[i] == xs[i]
  }

  /** `ys` is `xs` without the entry at `index`, or `xs` itself when there is
      no such entry. */
  ghost predicate RemovedAt<T>(xs: seq<T>, ys: seq<T>, index: int) {
    if 0 <= index < |xs| then ys == xs[..index] + xs[index + 1..] else ys == xs
  }

  /** `xs.map((x, i) => i === index ? f(x) : x)` */
  function ReplaceAt<T>(xs: seq<T>, index: int, f: T -> T): (r: seq<T>)
    ensures SameExceptAt(xs, r, index)
    ensures 0 <= index < |xs| ==> r[index] == f(xs[index])
    ensures !(0 <= index < |xs|) ==> r == xs
    decreases |xs|
  {
    if xs == [] then []
    else [if index == 0 then f(xs[0]) else xs[0]] + ReplaceAt(xs[1..], index - 1, f)
  }

  /** `xs.filter((_, i) => i !== index)` */
  function RemoveAt<T>(xs: seq<T>, index: int): (r: seq<T>)
    ensures RemovedAt(xs, r, index)
    decreases |xs|
  {
    if xs == [] then []
    else
      var rest := RemoveAt(xs[1..], index - 1);
      assert index == 0 ==> rest == xs[1..];
      assert 0 < index < |xs| ==> [xs[0]] + rest == xs[..index] + xs[index + 1..] by {
        if 0 < index < |xs| {
          assert xs[..index] == [xs[0]] + xs[1..][..index - 1];
          assert xs[index + 1..] == xs[1..][index..];
        }
      }
      (if index == 0 then [] else [xs[0]]) + rest
  }

  // --------------------------------------------------------------- updaters

  /** `updatePersonalInfo(field, value)` */
  function UpdatePersonalInfo(d: ResumeData, f: PersonalField, v: string): (r: ResumeData)
    ensures r == d.(personalInfo := r.personalInfo)
    ensures forall g :: PersonalGet(r.personalInfo, g) == if g == f then v else PersonalGet(d.personalInfo, g)
  {
    d.(personalInfo := PersonalSet(d.personalInfo, f, v))
  }

  /** `updateEducation(index, field, value)` */
  function UpdateEducation(d: ResumeData, index: int, f: EducationField, v: string): (r: ResumeData)
    ensures r == d.(education := r.education)
    ensures SameExceptAt(d.education, r.education, index)
    ensures 0 <= index < |d.education| ==>
      forall g :: EducationGet(r.education[index], g) == if g == f then v else EducationGet(d.education[index], g)
    ensures !(0 <= index < |d.education|) ==> r == d
  {
    d.(education := ReplaceAt(d.education, index, e => EducationSet(e, f, v)))
  }

  /** `addEducation()` */
  function AddEducation(d: ResumeData): (r: ResumeData)
    ensures r == d.(education := r.education)
    ensures |r.education| == |d.education| + 1
    ensures r.education[..|d.education|] == d.education && r.education[|d.education|] == BlankEducation
  {
    d.(education := d.education + [BlankEducation])
  }

  /** `removeEducation(index)` */
  function RemoveEducation(d: ResumeData, index: int): (r: ResumeData)
    ensures r == d.(education := r.education)
    ensures RemovedAt(d.education, r.education, index)
  {
    d.(education := RemoveAt(d.education, index))
  }

  /** `updateExperience(index, field, value)` */
  function UpdateExperience(d: ResumeData, index: int, f: ExperienceField, v: string): (r: ResumeData)
    ensures r == d.(experience := r.experience)
    ensures SameExceptAt(d.experience, r.experience, index)
    ensures 0 <= index < |d.experience| ==>
      && r.experience[index].responsibilities == d.experience[index].responsibilities
      && forall g :: ExperienceGet(r.experience[index], g) == if g == f then v else ExperienceGet(d.experience[index], g)
    ensures !(0 <= index < |d.experience|) ==> r == d
  {
    d.(experience := ReplaceAt(d.experience, index, e => ExperienceSet(e, f, v)))
  }

  /** `addExperience()` */
  function AddExperience(d: ResumeData): (r: ResumeData)
    ensures r == d.(experience := r.experience)
    ensures |r.experience| == |d.experience| + 1
    ensures r.experience[..|d.experience|] == d.experience && r.experience[|d.experience|] == BlankExperience
  {
    d.(experience := d.experience + [BlankExperience])
  }

  /** `removeExperience(index)` */
  function RemoveExperience(d: ResumeData, index: int): (r: ResumeData)
    ensures r == d.(experience := r.experience)
    ensures RemovedAt(d.experience, r.experience, index)
  {
    d.(experience := RemoveAt(d.experience, index))
  }

  /** Entry `expIndex` of the experience list with its responsibilities
      replaced by `g` of them; the shape shared by the three
      responsibility updaters. */
  function WithResponsibilities(d: ResumeData, expIndex: int, g: seq<string> -> seq<string>): (r: ResumeData)
    ensures r == d.(experience := r.experience)
    ensures SameExceptAt(d.experience, r.experience, expIndex)
    ensures 0 <= expIndex < |d.experience| ==>
      r.experience[expIndex] == d.experience[expIndex].(responsibilities := g(d.experience[expIndex].responsibilities))
    ensures !(0 <= expIndex < |d.experience|) ==> r == d
  {
    d.(experience := ReplaceAt(d.experience, expIndex, (e: Experience) => e.(responsibilities := g(e.responsibilities))))
  }

  /** `updateExperienceResponsibility(expIndex, respIndex, value)` */
  function UpdateResponsibility(d: ResumeData, expIndex: int, respIndex: int, v: string): (r: ResumeData)
    ensures r == d.(experience := r.experience)
    ensures SameExceptAt(d.experience, r.experience, expIndex)
    ensures 0 <= expIndex < |d.experience| ==>
      var before := d.experience[expIndex];
      var after := r.experience[expIndex];
      && after == before.(responsibilities := after.responsibilities)
      && SameExceptAt(before.responsibilities, after.responsibilities, respIndex)
      && (0 <= respIndex < |before.responsibilities| ==> after.responsibilities[respIndex] == v)
  {
    WithResponsibilities(d, expIndex, rs => ReplaceAt(rs, respIndex, _ => v))
  }

  /** `addResponsibility(expIndex)` */
  function AddResponsibility(d: ResumeData, expIndex: int): (r: ResumeData)
    ensures r == d.(experience := r.experience)
    ensures SameExceptAt(d.experience, r.experience, expIndex)
    ensures 0 <= expIndex < |d.experience| ==>
      var before := d.experience[expIndex];
      r.experience[expIndex] == before.(responsibilities := before.responsibilities + [""])
  {
    WithResponsibilities(d, expIndex, rs => rs + [""])
  }

  /** `removeResponsibility(expIndex, respIndex)` */
  function RemoveResponsibility(d: ResumeData, expIndex: int, respIndex: int): (r: ResumeData)
    ensures r == d.(experience := r.experience)
    ensures SameExceptAt(d.experience, r.experience, expIndex)
    ensures 0 <= expIndex < |d.experience| ==>
      var before := d.experience[expIndex];
      var after := r.experience[expIndex];
      && after == before.(responsibilities := after.responsibilities)
      && RemovedAt(before.responsibilities, after.responsibilities, respIndex)
  {
    WithResponsibilities(d, expIndex, rs => RemoveAt(rs, respIndex))
  }

  /** `updateProject(index, field, value)` */
  function UpdateProject(d: ResumeData, index: int, f: ProjectField, v: string): (r: ResumeData)
    ensures r == d.(projects := r.projects)
    ensures SameExceptAt(d.projects, r.projects, index)
    ensures 0 <= index < |d.projects| ==>
      && r.projects[index].description == d.projects[index].description
      && forall g :: ProjectGet(r.projects[index], g) == if g == f then v else ProjectGet(d.projects[index], g)
    ensures !(0 <= index < |d.projects|) ==> r == d
  {
    d.(projects := ReplaceAt(d.projects, index, p => ProjectSet(p, f, v)))
  }

  /** `addProject()` */
  function AddProject(d: ResumeData): (r: ResumeData)
    ensures r == d.(projects := r.projects)
    ensures |r.projects| == |d.projects| + 1
    ensures r.projects[..|d.projects|] == d.projects && r.projects[|d.projects|] == BlankProject
  {
    d.(projects := d.projects + [BlankProject])
  }

  /** `removeProject(index)` */
  function RemoveProject(d: ResumeData, index: int): (r: ResumeData)
    ensures r == d.(projects := r.projects)
    ensures RemovedAt(d.projects, r.projects, index)
  {
    d.(projects := RemoveAt(d.projects, index))
  }

  /** Entry `projIndex` of the project list with its description replaced
      by `g` of it; the shape shared by the three description updaters. */
  function WithDescription(d: ResumeData, projIndex: int, g: seq<string> -> seq<string>): (r: ResumeData)
    ensures r == d.(projects := r.projects)
    ensures SameExceptAt(d.projects, r.projects, projIndex)
    ensures 0 <= projIndex < |d.projects| ==>
      r.projects[projIndex] == d.projects[projIndex].(description := g(d.projects[projIndex].description))
    ensures !(0 <= projIndex < |d.projects|) ==> r == d
  {
    d.(projects := ReplaceAt(d.projects, projIndex, (p: Project) => p.(description := g(p.description))))
  }

  /** `updateProjectDescription(projIndex, descIndex, value)` */
  function UpdateProjectDescription(d: ResumeData, projIndex: int, descIndex: int, v: string): (r: ResumeData)
    ensures r == d.(projects := r.projects)
    ensures SameExceptAt(d.projects, r.projects, projIndex)
    ensures 0 <= projIndex < |d.projects| ==>
      var before := d.projects[projIndex];
      var after := r.projects[projIndex];
      && after == before.(description := after.description)
      && SameExceptAt(before.description, after.description, descIndex)
      && (0 <= descIndex < |before.description| ==> after.description[descIndex] == v)
  {
    WithDescription(d, projIndex, ds => ReplaceAt(ds, descIndex, _ => v))
  }

  /** `addProjectDescription(projIndex)` */
  function AddProjectDescription(d: ResumeData, projIndex: int): (r: ResumeData)
    ensures r == d.(projects := r.projects)
    ensures SameExceptAt(d.projects, r.projects, projIndex)
    ensures 0 <= projIndex < |d.projects| ==>
      var before := d.projects[projIndex];
      r.projects[projIndex] == before.(description := before.description + [""])
  {
    WithDescription(d, projIndex, ds => ds + [""])
  }

  /** `removeProjectDescription(projIndex, descIndex)` */
  function RemoveProjectDescription(d: ResumeData, projIndex: int, descIndex: int): (r: ResumeData)
    ensures r == d.(projects := r.projects)
    ensures SameExceptAt(d.projects, r.projects, projIndex)
    ensures 0 <= projIndex < |d.projects| ==>
      var before := d.projects[projIndex];
      var after := r.projects[projIndex];
      && after == before.(description := after.description)
      && RemovedAt(before.description, after.description, descIndex)
  {
    WithDescription(d, projIndex, ds => RemoveAt(ds, descIndex))
  }

  /** `updateSkills(field, value)` */
  function UpdateSkills(d: ResumeData, f: SkillsField, v: string): (r: ResumeData)
    ensures r == d.(skills := r.skills)
    ensures forall g :: SkillsGet(r.skills, g) == if g == f then v else SkillsGet(d.skills, g)
  {
    d.(skills := SkillsSet(d.skills, f, v))
  }

  /** The "Add Certification" button. */
  function AddCertification(d: ResumeData): (r: ResumeData)
    ensures r == d.(certifications := r.certifications)
    ensures |r.certifications| == |d.certifications| + 1
    ensures r.certifications[..|d.certifications|] == d.certifications
    ensures r.certifications[|d.certifications|] == BlankCertification
  {
    d.(certifications := d.certifications + [BlankCertification])
  }

  /** A certification's remove button. */
  function RemoveCertification(d: ResumeData, index: int): (r: ResumeData)
    ensures r == d.(certifications := r.certifications)
    ensures RemovedAt(d.certifications, r.certifications, index)
  {
    d.(certifications := RemoveAt(d.certifications, index))
  }

  /** A certification's input fields. */
  function UpdateCertification(d: ResumeData, index: int, f: CertificationField, v: string): (r: ResumeData)
    ensures r == d.(certifications := r.certifications)
    ensures SameExceptAt(d.certifications, r.certifications, index)
    ensures 0 <= index < |d.certifications| ==>
      forall g :: CertificationGet(r.certifications[index], g) == if g == f then v else CertificationGet(d.certifications[index], g)
    ensures !(0 <= index < |d.certifications|) ==> r == d
  {
    d.(certifications := ReplaceAt(d.certifications, index, c => CertificationSet(c, f, v)))
  }

  // -------------------------------------------------------- the form's controls

  /** What the user can do in the form. */
  datatype Action =
    | SetPersonal(pf: PersonalField, value: string)
    | SetEducation(index: int, ef: EducationField, value: string)
    | AddEducationEntry
    | RemoveEducationEntry(index: int)
    | SetExperience(index: int, xf: ExperienceField, value: string)
    | SetResponsibility(index: int, item: int, value: string)
    | AddExperienceEntry
    | RemoveExperienceEntry(index: int)
    | AddResponsibilityItem(index: int)
    | RemoveResponsibilityItem(index: int, item: int)
    | SetProject(index: int, jf: ProjectField, value: string)
    | SetDescription(index: int, item: int, value: string)
    | AddProjectEntry
    | RemoveProjectEntry(index: int)
    | AddDescriptionItem(index: int)
    | RemoveDescriptionItem(index: int, item: int)
    | SetSkills(sf: SkillsField, value: string)
    | AddCertificationEntry
    | RemoveCertificationEntry(index: int)
    | SetCertification(index: int, cf: CertificationField, value: string)

  function Apply(d: ResumeData, a: Action): ResumeData {
    match a
    case SetPersonal(f, v) => UpdatePersonalInfo(d, f, v)
    case SetEducation(i, f, v) => UpdateEducation(d, i, f, v)
    case AddEducationEntry => AddEducation(d)
    case RemoveEducationEntry(i) => RemoveEducation(d, i)
    case SetExperience(i, f, v) => UpdateExperience(d, i, f, v)
    case SetResponsibility(i, j, v) => UpdateResponsibility(d, i, j, v)
    case AddExperienceEntry => AddExperience(d)
    case RemoveExperienceEntry(i) => RemoveExperience(d, i)
    case AddResponsibilityItem(i) => AddResponsibility(d, i)
    case RemoveResponsibilityItem(i, j) => RemoveResponsibility(d, i, j)
    case SetProject(i, f, v) => UpdateProject(d, i, f, v)
    case SetDescription(i, j, v) => UpdateProjectDescription(d, i, j, v)
    case AddProjectEntry => AddProject(d)
    case RemoveProjectEntry(i) => RemoveProject(d, i)
    case AddDescriptionItem(i) => AddProjectDescription(d, i)
    case RemoveDescriptionItem(i, j) => RemoveProjectDescription(d, i, j)
    case SetSkills(f, v) => UpdateSkills(d, f, v)
    case AddCertificationEntry => AddCertification(d)
    case RemoveCertificationEntry(i) => RemoveCertification(d, i)
    case SetCertification(i, f, v) => UpdateCertification(d, i, f, v)
  }

  /** Whether the form renders the control for an action: controls of an
      entry exist only for the entries rendered, and a remove button only
      while its list has more than one entry. */
  predicate Offered(d: ResumeData, a: Action) {
    match a
    case SetEducation(i, _, _) => 0 <= i < |d.education|
    case RemoveEducationEntry(i) => 0 <= i < |d.education| && |d.education| > 1
    case SetExperience(i, _, _) => 0 <= i < |d.experience|
    case SetResponsibility(i, j, _) =>
      0 <= i < |d.experience| && 0 <= j < |d.experience[i].responsibilities|
    case RemoveExperienceEntry(i) => 0 <= i < |d.experience| && |d.experience| > 1
    case AddResponsibilityItem(i) => 0 <= i < |d.experience|
    case RemoveResponsibilityItem(i, j) =>
      0 <= i < |d.experience| && 0 <= j < |d.experience[i].responsibilities|
      && |d.experience[i].responsibilities| > 1
    case SetProject(i, _, _) => 0 <= i < |d.projects|
    case SetDescription(i, j, _) => 0 <= i < |d.projects| && 0 <= j < |d.projects[i].description|
    case RemoveProjectEntry(i) => 0 <= i < |d.projects| && |d.projects| > 1
    case AddDescriptionItem(i) => 0 <= i < |d.projects|
    case RemoveDescriptionItem(i, j) =>
      0 <= i < |d.projects| && 0 <= j < |d.projects[i].description| && |d.projects[i].description| > 1
    case RemoveCertificationEntry(i) => 0 <= i < |d.certifications| && |d.certifications| > 1
    case SetCertification(i, _, _) => 0 <= i < |d.certifications|
    case _ => true
  }

  /** No list of the form, nested ones included, is empty. */
  predicate NoEmptyList(d: ResumeData) {
    && |d.education| > 0 && |d.experience| > 0 && |d.projects| > 0 && |d.certifications| > 0
    && ResponsibilitiesFilled(d.experience) && DescriptionsFilled(d.projects)
  }

  /** Every control the form offers keeps every list non-empty. */
  lemma OfferedKeepsLists(d: ResumeData, a: Action)
    requires NoEmptyList(d) && Offered(d, a)
    ensures NoEmptyList(Apply(d, a))
  {
    match a
    case SetExperience(i, f, v) => ExperienceItemsKept(d.experience, UpdateExperience(d, i, f, v).experience, i);
    case SetResponsibility(i, j, v) => ExperienceItemsKept(d.experience, UpdateResponsibility(d, i, j, v).experience, i);
    case AddExperienceEntry => ExperienceItemsAppended(d.experience, BlankExperience);
    case RemoveExperienceEntry(i) => ExperienceItemsRemoved(d.experience, i);
    case AddResponsibilityItem(i) => ExperienceItemsKept(d.experience, AddResponsibility(d, i).experience, i);
    case RemoveResponsibilityItem(i, j) => ExperienceItemsKept(d.experience, RemoveResponsibility(d, i, j).experience, i);
    case SetProject(i, f, v) => ProjectItemsKept(d.projects, UpdateProject(d, i, f, v).projects, i);
    case SetDescription(i, j, v) => ProjectItemsKept(d.projects, UpdateProjectDescription(d, i, j, v).projects, i);
    case AddProjectEntry => ProjectItemsAppended(d.projects, BlankProject);
    case RemoveProjectEntry(i) => ProjectItemsRemoved(d.projects, i);
    case AddDescriptionItem(i) => ProjectItemsKept(d.projects, AddProjectDescription(d, i).projects, i);
    case RemoveDescriptionItem(i, j) => ProjectItemsKept(d.projects, RemoveProjectDescription(d, i, j).projects, i);
    case _ =>
  }

  /** Every experience entry has at least one responsibility. */
  predicate ResponsibilitiesFilled(xs: seq<Experience>) {
    forall i :: 0 <= i < |xs| ==> |xs[i].responsibilities| > 0
  }

  /** Every project has at least one description item. */
  predicate DescriptionsFilled(xs: seq<Project>) {
    forall i :: 0 <= i < |xs| ==> |xs[i].description| > 0
  }

  lemma ExperienceItemsKept(xs: seq<Experience>, ys: seq<Experience>, index: int)
    requires ResponsibilitiesFilled(xs) && SameExceptAt(xs, ys, index)
    requires 0 <= index < |ys| ==> |ys[index].responsibilities| > 0
    ensures ResponsibilitiesFilled(ys)
  {
  }

  lemma ExperienceItemsAppended(xs: seq<Experience>, x: Experience)
    requires ResponsibilitiesFilled(xs) && |x.responsibilities| > 0
    ensures ResponsibilitiesFilled(xs + [x])
  {
  }

  lemma ExperienceItemsRemoved(xs: seq<Experience>, index: int)
    requires ResponsibilitiesFilled(xs)
    ensures ResponsibilitiesFilled(RemoveAt(xs, index))
  {
    if 0 <= index < |xs| {
      assert RemoveAt(xs, index) == xs[..index] + xs[index + 1..];
    }
  }

  lemma ProjectItemsKept(xs: seq<Project>, ys: seq<Project>, index: int)
    requires DescriptionsFilled(xs) && SameExceptAt(xs, ys, index)
    requires 0 <= index < |ys| ==> |ys[index].description| > 0
    ensures DescriptionsFilled(ys)
  {
  }

  lemma ProjectItemsAppended(xs: seq<Project>, x: Project)
    requires DescriptionsFilled(xs) && |x.description| > 0
    ensures DescriptionsFilled(xs + [x])
  {
  }

  lemma ProjectItemsRemoved(xs: seq<Project>, index: int)
    requires DescriptionsFilled(xs)
    ensures DescriptionsFilled(RemoveAt(xs, index))
  {
    if 0 <= index < |xs| {
      assert RemoveAt(xs, index) == xs[..index] + xs[index + 1..];
    }
  }

  /** The actions one after another, each offered when it is taken. */
  predicate AllOffered(d: ResumeData, actions: seq<Action>)
    decreases |actions|
  {
    actions == [] || (Offered(d, actions[0]) && AllOffered(Apply(d, actions[0]), actions[1..]))
  }

  function Run(d: ResumeData, actions: seq<Action>): ResumeData
    decreases |actions|
  {
    if actions == [] then d else Run(Apply(d, actions[0]), actions[1..])
  }

  /** Lists never become empty through the form: from the initial state,
      any sequence of the controls it offers leaves every list non-empty. */
  lemma {:induction false} FormKeepsLists(d: ResumeData, actions: seq<Action>)
    requires NoEmptyList(d) && AllOffered(d, actions)
    ensures NoEmptyList(Run(d, actions))
    decreases |actions|
  {
    if actions != [] {
      OfferedKeepsLists(d, actions[0]);
      FormKeepsLists(Apply(d, actions[0]), actions[1..]);
    }
  }

  lemma InitialHasNoEmptyList()
    ensures NoEmptyList(Initial)
  {
  }

  /** The guard is what keeps the lists: the updater itself empties a
      one-entry list. */
  lemma RemoveUnguardedEmpties(d: ResumeData)
    requires |d.education| == 1
    ensures RemoveEducation(d, 0).education == []
  {
  }
}
