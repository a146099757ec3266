/** The LaTeX serializer of the résumé generator (Jake's résumé template):
    the sections emitted from the editor's state, and the document. */
module Latex {
  import opened Text
  import opened Editor
  import opened Escape
  import opened Render

  // ----------------------------------------------------------------- header

  /** What goes between two header fields. */
  const Sep := " $|$ "

  const HeaderClose := "\n\\end{center}"

  function HeaderOpen(p: PersonalInfo): string {
    "\\begin{center}\n    \\textbf{\\Huge \\scshape " + EscapeLatex(p.name) + "} \\\\ \\vspace{1pt}\n    \\small " + EscapeLatex(p.phone)
  }

  /** The e-mail link; the address is written as typed, unescaped. */
  function Mailto(email: string): string {
    "\\href{mailto:" + email + "}{\\underline{" + email + "}}"
  }

  /** The contact links, in the order email, LinkedIn, GitHub, website, for
      the fields that are filled in. */
  function Contacts(p: PersonalInfo): seq<string> {
    Present(p.email, Mailto(p.email)) + Present(p.linkedin, FormatUrl(p.linkedin))
    + Present(p.github, FormatUrl(p.github)) + Present(p.website, FormatUrl(p.website))
  }

  function Separated(link: string): string { Sep + link }

  /** `generateHeader()` */
  function Header(p: PersonalInfo): string {
    HeaderOpen(p) + Concat(Map(Contacts(p), Separated)) + HeaderClose
  }

  /** Adds one contact when the field is filled in. */
  method AppendContact(content: string, ghost done: seq<string>, field: string, link: string)
    returns (r: string, ghost now: seq<string>)
    requires content == Concat(Map(done, Separated))
    ensures now == done + Present(field, link)
    ensures r == Concat(Map(now, Separated))
  {
    r, now := content, done;
    if field != "" {
      AppendAssoc(r, Sep, link);
      r := r + Sep + link;
      now := done + [link];
      MapAppend(done, link, Separated);
      assert DropLast(Map(done, Separated) + [Separated(link)]) == Map(done, Separated);
    } else {
      assert done + [] == done;
    }
  }

  /** The header: name and phone, then a separator and a link for each
      contact field that is filled in. */
  method GenerateHeader(p: PersonalInfo) returns (headerContent: string)
    ensures headerContent == Header(p)
  {
    var links := "";
    ghost var done: seq<string> := [];
    links, done := AppendContact(links, done, p.email, Mailto(p.email));
    assert done == Present(p.email, Mailto(p.email));
    links, done := AppendContact(links, done, p.linkedin, FormatUrl(p.linkedin));
    links, done := AppendContact(links, done, p.github, FormatUrl(p.github));
    links, done := AppendContact(links, done, p.website, FormatUrl(p.website));
    headerContent := HeaderOpen(p) + links + HeaderClose;
  }

  /** Every contact field that is filled in shows up, after a separator;
      the e-mail address unescaped. */
  lemma HeaderLinks(p: PersonalInfo)
    ensures p.email != "" ==> Contains(Header(p), Sep + Mailto(p.email))
    ensures p.linkedin != "" ==> Contains(Header(p), Sep + FormatUrl(p.linkedin))
    ensures p.github != "" ==> Contains(Header(p), Sep + FormatUrl(p.github))
    ensures p.website != "" ==> Contains(Header(p), Sep + FormatUrl(p.website))
  {
    forall link | link in Contacts(p)
      ensures Contains(Header(p), Sep + link)
    {
      HeaderShowsContact(p, link);
    }
  }

  lemma HeaderShowsContact(p: PersonalInfo, link: string)
    requires link in Contacts(p)
    ensures Contains(Header(p), Sep + link)
  {
    var cs := Contacts(p);
    var j :| 0 <= j < |cs| && cs[j] == link;
    ConcatContains(Map(cs, Separated), j);
    ContainsMiddle(HeaderOpen(p), Concat(Map(cs, Separated)), HeaderClose, Sep + link);
  }

  /** No contact field filled in: no separator at all. */
  lemma HeaderWithoutContacts(p: PersonalInfo)
    requires p.email == "" && p.linkedin == "" && p.github == "" && p.website == ""
    ensures Header(p) == HeaderOpen(p) + HeaderClose
  {
    assert Contacts(p) == [];
  }

  // -------------------------------------------------------------- education

  const EducationOpen := "\n\n%-----------EDUCATION-----------\n\\section{Education}\n  \\resumeSubHeadingListStart"
  const EducationClose := "\n  \\resumeSubHeadingListEnd"

  /** An entry is written only with institution, location, degree and dates. */
  predicate EducationComplete(e: Education) {
    e.institution != "" && e.location != "" && e.degree != "" && e.dates != ""
  }

  /** The GPA and the honours, when given. */
  function DegreeExtras(e: Education): seq<string> {
    (if e.gpa != "" then ["GPA: " + EscapeLatex(e.gpa)] else [])
    + (if e.honors != "" then [EscapeLatex(e.honors)] else [])
  }

  function DegreeText(e: Education): string {
    var extras := DegreeExtras(e);
    if |extras| > 0 then EscapeLatex(e.degree) + ", " + Join(extras, ", ") else EscapeLatex(e.degree)
  }

  function EducationEntry(e: Education): string {
    "\n    \\resumeSubheading\n      {" + EscapeLatex(e.institution) + "}{" + EscapeLatex(e.location)
    + "}\n      {" + DegreeText(e) + "}{" + EscapeLatex(e.dates) + "}"
  }

  /** `generateEducation()` */
  function EducationSection(edu: seq<Education>): string {
    if edu == [] then "" else EducationOpen + EmitEach(edu, EducationComplete, EducationEntry) + EducationClose
  }

  method GenerateEducation(education: seq<Education>) returns (educationContent: string)
    ensures educationContent == EducationSection(education)
  {
    if education == [] {
      return "";
    }
    educationContent := EducationOpen;
    for i := 0 to |education|
      invariant educationContent == EducationOpen + EmitEach(education[..i], EducationComplete, EducationEntry)
    {
      PrefixStep(education, i);
      var edu := education[i];
      if EducationComplete(edu) {
        AppendAssoc(EducationOpen, EmitEach(education[..i], EducationComplete, EducationEntry), EducationEntry(edu));
        educationContent := educationContent + EducationEntry(edu);
      }
    }
    assert education[..|education|] == education;
    educationContent := educationContent + EducationClose;
  }

  /** The section is left out exactly when there are no entries; otherwise
      it holds the complete entries, in order, and nothing else. */
  lemma EducationSectionSpec(edu: seq<Education>)
    ensures EducationSection(edu) == "" <==> edu == []
    ensures edu != [] ==>
      EducationSection(edu) == EducationOpen + Concat(Map(Filter(edu, EducationComplete), EducationEntry)) + EducationClose
  {
    EmitEachIsConcat(edu, EducationComplete, EducationEntry);
  }

  /** The degree comes first; GPA and honours follow after a comma when
      given, and the degree is alone exactly when neither is. */
  lemma DegreeTextSpec(e: Education)
    ensures EscapeLatex(e.degree) <= DegreeText(e)
    ensures DegreeText(e) == EscapeLatex(e.degree) <==> e.gpa == "" && e.honors == ""
  {
    var extras := DegreeExtras(e);
    if |extras| > 0 {
      var d := EscapeLatex(e.degree);
      AppendAssoc(d, ", ", Join(extras, ", "));
      assert |DegreeText(e)| > |d|;
    }
  }

  /** The GPA, labelled, and the honours each appear when given. */
  lemma DegreeExtrasShown(e: Education)
    ensures e.gpa != "" ==> Contains(DegreeText(e), "GPA: " + EscapeLatex(e.gpa))
    ensures e.honors != "" ==> Contains(DegreeText(e), EscapeLatex(e.honors))
  {
    if e.gpa != "" {
      ExtraShown(e, 0);
    }
    if e.honors != "" {
      ExtraShown(e, |DegreeExtras(e)| - 1);
    }
  }

  lemma ExtraShown(e: Education, k: nat)
    requires k < |DegreeExtras(e)|
    ensures Contains(DegreeText(e), DegreeExtras(e)[k])
  {
    var extras := DegreeExtras(e);
    JoinContainsEach(extras, ", ", k);
    ContainsPrepend(EscapeLatex(e.degree) + ", ", Join(extras, ", "), extras[k]);
  }

  // ------------------------------------------------------------- item lists

  /** A bullet with its text trimmed and escaped, at the list's depth. */
  function ItemLine(indent: string, item: string): string {
    "\n" + indent + "  \\resumeItem{" + EscapeLatex(Trim(item)) + "}"
  }

  function ListStart(indent: string): string { "\n" + indent + "\\resumeItemListStart" }

  function ListEnd(indent: string): string { "\n" + indent + "\\resumeItemListEnd" }

  predicate NotBlank(s: string) { !IsBlank(s) }

  /** The bullet list of the non-blank items, or nothing when every item is
      blank. */
  function ItemList(items: seq<string>, indent: string): string {
    var valid := Filter(items, NotBlank);
    if |valid| > 0 then ListStart(indent) + Concat(Map(valid, line => ItemLine(indent, line))) + ListEnd(indent)
    else ""
  }

  method GenerateItems(items: seq<string>, indent: string) returns (content: string)
    ensures content == ItemList(items, indent)
  {
    var validItems := Filter(items, NotBlank);
    content := "";
    if |validItems| > 0 {
      var render := line => ItemLine(indent, line);
      var lines := "";
      for i := 0 to |validItems|
        invariant lines == Concat(Map(validItems[..i], render))
      {
        MapStep(validItems, render, i);
        PrefixStep(Map(validItems[..i + 1], render), i);
        lines := lines + ItemLine(indent, validItems[i]);
      }
      assert validItems[..|validItems|] == validItems;
      content := ListStart(indent) + lines + ListEnd(indent);
    }
  }

  /** The list is left out exactly when every item is blank; each non-blank
      item appears trimmed and escaped. */
  lemma ItemListSpec(items: seq<string>, indent: string)
    ensures ItemList(items, indent) == "" <==> forall i :: 0 <= i < |items| ==> IsBlank(items[i])
    ensures forall item :: item in items && !IsBlank(item) ==>
      Contains(ItemList(items, indent), EscapeLatex(Trim(item)))
  {
    FilterSpec(items, NotBlank);
    forall item | item in items && !IsBlank(item)
      ensures Contains(ItemList(items, indent), EscapeLatex(Trim(item)))
    {
      ItemListContains(items, indent, item);
    }
  }

  lemma ItemListContains(items: seq<string>, indent: string, item: string)
    requires item in Filter(items, NotBlank)
    ensures Contains(ItemList(items, indent), EscapeLatex(Trim(item)))
  {
    var valid := Filter(items, NotBlank);
    var render := line => ItemLine(indent, line);
    var j :| 0 <= j < |valid| && valid[j] == item;
    ConcatContains(Map(valid, render), j);
    ItemLineContains(indent, item);
    ContainsTrans(Concat(Map(valid, render)), ItemLine(indent, item), EscapeLatex(Trim(item)));
    ContainsMiddle(ListStart(indent), Concat(Map(valid, render)), ListEnd(indent), EscapeLatex(Trim(item)));
  }

  lemma ItemLineContains(indent: string, item: string)
    ensures Contains(ItemLine(indent, item), EscapeLatex(Trim(item)))
  {
    var e := EscapeLatex(Trim(item));
    ContainsAt(e, e, 0);
    ContainsMiddle("\n" + indent + "  \\resumeItem{", e, "}", e);
  }

  // ------------------------------------------------------------- experience

  const ExperienceOpen := "\n\n%-----------EXPERIENCE-----------\n\\section{Experience}\n  \\resumeSubHeadingListStart"
  const ExperienceClose := "\n\n  \\resumeSubHeadingListEnd"
  const ExperienceIndent := "      "

  /** Some heading field holds more than white space. */
  predicate ExperienceHasContent(e: Experience) {
    !IsBlank(e.title) || !IsBlank(e.company) || !IsBlank(e.location) || !IsBlank(e.dates)
  }

  predicate ExperienceComplete(e: Experience) {
    e.title != "" && e.company != "" && e.location != "" && e.dates != ""
  }

  function ExperienceHeading(e: Experience): string {
    "\n\n    \\resumeSubheading\n      {" + EscapeLatex(e.title) + "}{" + EscapeLatex(e.dates)
    + "}\n      {" + EscapeLatex(e.company) + "}{" + EscapeLatex(e.location) + "}"
  }

  function ExperienceEntry(e: Experience): string {
    ExperienceHeading(e) + ItemList(e.responsibilities, ExperienceIndent)
  }

  /** `generateExperience()` */
  function ExperienceSection(xs: seq<Experience>): string {
    GuardedSection(xs, ExperienceHasContent, ExperienceComplete, ExperienceEntry, ExperienceOpen, ExperienceClose)
  }

  /** One entry of the `forEach`: the heading, then its bullet list. */
  method AppendExperience(experienceContent: string, exp: Experience) returns (r: string)
    ensures r == experienceContent + ExperienceEntry(exp)
  {
    r := experienceContent + ExperienceHeading(exp);
    var items := GenerateItems(exp.responsibilities, ExperienceIndent);
    AppendAssoc(experienceContent, ExperienceHeading(exp), items);
    r := r + items;
  }

  method GenerateExperience(experience: seq<Experience>) returns (experienceContent: string)
    ensures experienceContent == ExperienceSection(experience)
  {
    if experience == [] {
      return "";
    }
    var hasValidExperience := exists i :: 0 <= i < |experience| && ExperienceHasContent(experience[i]);
    if !hasValidExperience {
      GuardedSectionHidden(experience, ExperienceHasContent, ExperienceComplete, ExperienceEntry, ExperienceOpen, ExperienceClose);
      return "";
    }
    var shown :| 0 <= shown < |experience| && ExperienceHasContent(experience[shown]);
    GuardedSectionShown(experience, ExperienceHasContent, ExperienceComplete, ExperienceEntry, ExperienceOpen, ExperienceClose, shown);
    experienceContent := EmitExperience(experience);
    experienceContent := experienceContent + ExperienceClose;
  }

  /** The `forEach` of `generateExperience()`: starting from the opening, each
      complete entry is appended, in order. */
  method EmitExperience(experience: seq<Experience>) returns (experienceContent: string)
    ensures experienceContent == ExperienceOpen + EmitEach(experience, ExperienceComplete, ExperienceEntry)
  {
    experienceContent := ExperienceOpen;
    for i := 0 to |experience|
      invariant experienceContent == ExperienceOpen + EmitEach(experience[..i], ExperienceComplete, ExperienceEntry)
    {
      PrefixStep(experience, i);
      var exp := experience[i];
      if ExperienceComplete(exp) {
        AppendAssoc(ExperienceOpen, EmitEach(experience[..i], ExperienceComplete, ExperienceEntry), ExperienceEntry(exp));
        experienceContent := AppendExperience(experienceContent, exp);
      }
    }
    assert experience[..|experience|] == experience;
  }

  /** The section is left out exactly when no entry has a heading field
      with more than white space; otherwise it holds the complete entries,
      in order, and nothing else, so every complete entry appears, even one
      whose fields are only white space. */
  lemma ExperienceSectionSpec(xs: seq<Experience>)
    ensures ExperienceSection(xs) == "" <==> forall i :: 0 <= i < |xs| ==> !ExperienceHasContent(xs[i])
    ensures (exists i :: 0 <= i < |xs| && ExperienceHasContent(xs[i])) ==>
      ExperienceSection(xs)
        == ExperienceOpen + Concat(Map(Filter(xs, ExperienceComplete), ExperienceEntry)) + ExperienceClose
    ensures (exists i :: 0 <= i < |xs| && ExperienceHasContent(xs[i])) ==>
      forall e :: e in xs && ExperienceComplete(e) ==> Contains(ExperienceSection(xs), ExperienceEntry(e))
  {
    GuardedSectionSpec(xs, ExperienceHasContent, ExperienceComplete, ExperienceEntry, ExperienceOpen, ExperienceClose);
  }

  // --------------------------------------------------------------- projects

  const ProjectsOpen := "\n\n%-----------PROJECTS-----------\n\\section{Projects}\n    \\resumeSubHeadingListStart"
  const ProjectsClose := "\n    \\resumeSubHeadingListEnd"
  const ProjectIndent := "          "

  predicate ProjectHasContent(p: Project) {
    !IsBlank(p.name) || !IsBlank(p.technologies) || !IsBlank(p.dates)
  }

  predicate ProjectComplete(p: Project) {
    p.name != "" && p.technologies != "" && p.dates != ""
  }

  function ProjectHeading(p: Project): string {
    "\n      \\resumeProjectHeading\n          {\\textbf{" + EscapeLatex(p.name) + "} $|$ \\emph{"
    + EscapeLatex(p.technologies) + "}}{" + EscapeLatex(p.dates) + "}"
  }

  function ProjectEntry(p: Project): string {
    ProjectHeading(p) + ItemList(p.description, ProjectIndent)
  }

  /** `generateProjects()` */
  function ProjectsSection(ps: seq<Project>): string {
    GuardedSection(ps, ProjectHasContent, ProjectComplete, ProjectEntry, ProjectsOpen, ProjectsClose)
  }

  /** One entry of the `forEach`: the heading, then its bullet list. */
  method AppendProject(projectsContent: string, project: Project) returns (r: string)
    ensures r == projectsContent + ProjectEntry(project)
  {
    r := projectsContent + ProjectHeading(project);
    var items := GenerateItems(project.description, ProjectIndent);
    AppendAssoc(projectsContent, ProjectHeading(project), items);
    r := r + items;
  }

  method GenerateProjects(projects: seq<Project>) returns (projectsContent: string)
    ensures projectsContent == ProjectsSection(projects)
  {
    if projects == [] {
      return "";
    }
    var hasValidProjects := exists i :: 0 <= i < |projects| && ProjectHasContent(projects[i]);
    if !hasValidProjects {
      GuardedSectionHidden(projects, ProjectHasContent, ProjectComplete, ProjectEntry, ProjectsOpen, ProjectsClose);
      return "";
    }
    var shown :| 0 <= shown < |projects| && ProjectHasContent(projects[shown]);
    GuardedSectionShown(projects, ProjectHasContent, ProjectComplete, ProjectEntry, ProjectsOpen, ProjectsClose, shown);
    projectsContent := EmitProjects(projects);
    projectsContent := projectsContent + ProjectsClose;
  }

  /** The `forEach` of `generateProjects()`: starting from the opening, each
      complete entry is appended, in order. */
  method EmitProjects(projects: seq<Project>) returns (projectsContent: string)
    ensures projectsContent == ProjectsOpen + EmitEach(projects, ProjectComplete, ProjectEntry)
  {
    projectsContent := ProjectsOpen;
    for i := 0 to |projects|
      invariant projectsContent == ProjectsOpen + EmitEach(projects[..i], ProjectComplete, ProjectEntry)
    {
      PrefixStep(projects, i);
      var project := projects[i];
      if ProjectComplete(project) {
        AppendAssoc(ProjectsOpen, EmitEach(projects[..i], ProjectComplete, ProjectEntry), ProjectEntry(project));
        projectsContent := AppendProject(projectsContent, project);
      }
    }
    assert projects[..|projects|] == projects;
  }

  /** The section is left out exactly when no project has a name,
      technologies or dates with more than white space; otherwise it holds
      the complete projects, in order, and nothing else, so every complete
      project appears, even one whose fields are only white space. */
  lemma ProjectsSectionSpec(ps: seq<Project>)
    ensures ProjectsSection(ps) == "" <==> forall i :: 0 <= i < |ps| ==> !ProjectHasContent(ps[i])
    ensures (exists i :: 0 <= i < |ps| && ProjectHasContent(ps[i])) ==>
      ProjectsSection(ps)
        == ProjectsOpen + Concat(Map(Filter(ps, ProjectComplete), ProjectEntry)) + ProjectsClose
    ensures (exists i :: 0 <= i < |ps| && ProjectHasContent(ps[i])) ==>
      forall p :: p in ps && ProjectComplete(p) ==> Contains(ProjectsSection(ps), ProjectEntry(p))
  {
    GuardedSectionSpec(ps, ProjectHasContent, ProjectComplete, ProjectEntry, ProjectsOpen, ProjectsClose);
  }


  // ----------------------------------------------------------------- skills

  const SkillsOpen := "\n\n%-----------PROGRAMMING SKILLS-----------\n\\section{Technical Skills}\n \\begin{itemize}[leftmargin=0.15in, label={}]\n    \\small{\\item{"
  const SkillsSep := " \\\\\n     "

  function SkillLine(category: string, value: string): string {
    "\\textbf{" + category + "}{: " + EscapeLatex(value) + "}"
  }

  /** The four technical categories that are filled in, in order; soft
      skills and spoken languages are not part of the document. */
  function SkillItems(s: Skills): seq<string> {
    Present(s.languages, SkillLine("Languages", s.languages))
    + Present(s.frameworks, SkillLine("Frameworks", s.frameworks))
    + Present(s.developerTools, SkillLine("Developer Tools", s.developerTools))
    + Present(s.libraries, SkillLine("Libraries", s.libraries))
  }

  /** `generateSkills()` */
  function SkillsSection(s: Skills): string {
    if s.languages == "" && s.frameworks == "" && s.developerTools == "" && s.libraries == "" then ""
    else SkillsOpen + "\n     " + Join(SkillItems(s), SkillsSep) + "\n    }}\n \\end{itemize}"
  }

  /** `if (value) skillItems.push(line)` */
  method PushSkill(skillItems: seq<string>, value: string, line: string) returns (r: seq<string>)
    ensures r == skillItems + Present(value, line)
  {
    r := skillItems;
    if value != "" {
      r := r + [line];
    } else {
      assert skillItems + [] == skillItems;
    }
  }

  method GenerateSkills(skills: Skills) returns (skillsContent: string)
    ensures skillsContent == SkillsSection(skills)
  {
    if skills.languages == "" && skills.frameworks == "" && skills.developerTools == "" && skills.libraries == "" {
      return "";
    }
    skillsContent := SkillsOpen;
    var skillItems: seq<string> := [];
    skillItems := PushSkill(skillItems, skills.languages, SkillLine("Languages", skills.languages));
    assert skillItems == Present(skills.languages, SkillLine("Languages", skills.languages));
    skillItems := PushSkill(skillItems, skills.frameworks, SkillLine("Frameworks", skills.frameworks));
    skillItems := PushSkill(skillItems, skills.developerTools, SkillLine("Developer Tools", skills.developerTools));
    skillItems := PushSkill(skillItems, skills.libraries, SkillLine("Libraries", skills.libraries));
    skillsContent := skillsContent + "\n     " + Join(skillItems, SkillsSep) + "\n    }}\n \\end{itemize}";
  }

  /** The section is left out exactly when the four technical categories are
      empty; soft skills and spoken languages never matter. */
  lemma SkillsSectionSpec(s: Skills, soft: string, spoken: string)
    ensures SkillsSection(s) == "" <==> s.languages == "" && s.frameworks == "" && s.developerTools == "" && s.libraries == ""
    ensures SkillsSection(s.(softSkills := soft, languagesSpoken := spoken)) == SkillsSection(s)
  {
  }

  /** Each filled-in technical category has its line, and every line is
      in the section. */
  lemma SkillsShown(s: Skills)
    ensures s.languages != "" ==> SkillLine("Languages", s.languages) in SkillItems(s)
    ensures s.frameworks != "" ==> SkillLine("Frameworks", s.frameworks) in SkillItems(s)
    ensures s.developerTools != "" ==> SkillLine("Developer Tools", s.developerTools) in SkillItems(s)
    ensures s.libraries != "" ==> SkillLine("Libraries", s.libraries) in SkillItems(s)
    ensures forall line :: line in SkillItems(s) ==> Contains(SkillsSection(s), line)
  {
    forall line | line in SkillItems(s)
      ensures Contains(SkillsSection(s), line)
    {
      var k :| 0 <= k < |SkillItems(s)| && SkillItems(s)[k] == line;
      SkillShown(s, k);
    }
  }

  lemma SkillShown(s: Skills, k: nat)
    requires k < |SkillItems(s)|
    ensures Contains(SkillsSection(s), SkillItems(s)[k])
  {
    var items := SkillItems(s);
    JoinContainsEach(items, SkillsSep, k);
    ContainsMiddle(SkillsOpen + "\n     ", Join(items, SkillsSep), "\n    }}\n \\end{itemize}", items[k]);
  }

  // --------------------------------------------------------------- document

  /** `personalInfo.name || 'Your Name'`, unescaped. */
  function Author(p: PersonalInfo): string {
    if p.name != "" then p.name else "Your Name"
  }

  const DocumentStart := "%-------------------------\n% Resume in Latex\n% Author : "
  const DocumentEnd := "\n\n\n%-------------------------------------------\n\\end{document}"

  /** `generateLatexCode(resumeData)`. `preamble` is the fixed template text
      between the author line and the header (document class, packages,
      macros). */
  function LatexDocument(d: ResumeData, preamble: string): string {
    DocumentStart + Author(d.personalInfo) + preamble + Header(d.personalInfo) + Sections(d) + DocumentEnd
  }

  /** The sections after the header, in document order. */
  function Sections(d: ResumeData): string {
    EducationSection(d.education) + ExperienceSection(d.experience)
    + ProjectsSection(d.projects) + SkillsSection(d.skills)
  }

  method GenerateLatexCode(d: ResumeData, preamble: string) returns (latexDocument: string)
    ensures latexDocument == LatexDocument(d, preamble)
  {
    var header := GenerateHeader(d.personalInfo);
    var education := GenerateEducation(d.education);
    var experience := GenerateExperience(d.experience);
    var projects := GenerateProjects(d.projects);
    var skills := GenerateSkills(d.skills);
    latexDocument := DocumentStart + Author(d.personalInfo) + preamble + header
      + (education + experience + projects + skills) + DocumentEnd;
  }

  /** The certifications the editor collects never reach the document, and
      neither do soft skills or spoken languages. */
  lemma CertificationsNotEmitted(d: ResumeData, preamble: string, cs: seq<Certification>, soft: string, spoken: string)
    ensures LatexDocument(d.(certifications := cs), preamble) == LatexDocument(d, preamble)
    ensures LatexDocument(d.(skills := d.skills.(softSkills := soft, languagesSpoken := spoken)), preamble)
      == LatexDocument(d, preamble)
  {
    SkillsSectionSpec(d.skills, soft, spoken);
  }

  /** With no education, no experience or project with content and no
      technical skill, no section is emitted: the document is the template
      around the header. */
  lemma NoSections(d: ResumeData)
    requires d.education == []
    requires forall i :: 0 <= i < |d.experience| ==> !ExperienceHasContent(d.experience[i])
    requires forall i :: 0 <= i < |d.projects| ==> !ProjectHasContent(d.projects[i])
    requires d.skills.languages == "" && d.skills.frameworks == "" && d.skills.developerTools == "" && d.skills.libraries == ""
    ensures Sections(d) == ""
  {
    EducationSectionSpec(d.education);
    ExperienceSectionSpec(d.experience);
    ProjectsSectionSpec(d.projects);
    SkillsSectionSpec(d.skills, d.skills.softSkills, d.skills.languagesSpoken);
  }

  /** The document opens with the author line, holds the header, and closes
      the document environment. */
  lemma DocumentFrame(d: ResumeData, preamble: string)
    ensures DocumentStart + Author(d.personalInfo) <= LatexDocument(d, preamble)
    ensures Contains(LatexDocument(d, preamble), Header(d.personalInfo))
    ensures EndsWith(LatexDocument(d, preamble), DocumentEnd)
  {
    Framed(DocumentStart + Author(d.personalInfo), preamble, Header(d.personalInfo), Sections(d), DocumentEnd);
  }
}
