/** The minimalist layout: a header (name, title, contact line), the summary
    as a paragraph without a heading, then the sections Experience,
    Education, Skills and Projects, each only when it has entries. Project
    links show the url itself. */
module MinimalistTemplate {
  import opened ResumeTypes
  import opened Blocks
  import opened ShownItems

  /** The summary as a bare paragraph, only when it is non-empty. */
  function SummaryParagraph(p: PersonalDetails): (r: seq<Block>)
    ensures p.summary != "" ==> r == [Text(Personal(Summary), p.summary)]
    ensures p.summary == "" ==> r == []
    ensures Headings(r) == [] && Links(r) == []
    ensures Personals(r) == When(p.summary != "", Summary)
  {
    ContactItem(p, Summary)
  }

  /** The header and the summary paragraph: every personal field the layout
      shows, and no heading. */
  function Top(p: PersonalDetails): (r: seq<Block>)
    ensures Headings(r) == [] && Links(r) == [] && Personals(r) == ShownPersonals(p)
  {
    ProjectionsAppend(HeaderBlocks(p), SummaryParagraph(p));
    HeaderBlocks(p) + SummaryParagraph(p)
  }

  /** The top opens with the name and then the title. */
  lemma TopStart(p: PersonalDetails)
    ensures |Top(p)| >= 2 && Top(p)[0] == Text(Personal(Name), p.name) && Top(p)[1] == Text(Personal(Title), p.title)
  {
    FirstTwo(HeaderBlocks(p), SummaryParagraph(p));
  }

  /** Experience, Education, Skills and Projects, each only when it has
      entries. */
  function Sections(d: ResumeData): (r: seq<Block>)
    ensures Headings(r) == When(|d.experience| > 0, "Experience") + When(|d.education| > 0, "Education")
                           + When(|d.skills| > 0, "Skills") + When(|d.projects| > 0, "Projects")
    ensures Personals(r) == [] && Links(r) == FlatMap(d.projects, UrlLink)
  {
    var x, e := ExperienceSection("Experience", d.experience), EducationSection("Education", d.education);
    var s, q := SkillsSection("Skills", d.skills), UrlProjectsSection("Projects", d.projects);
    ProjectionsAppend4(x, e, s, q);
    Drop4(Links(x), Links(e), Links(s), Links(q));
    Drop4(Personals(x), Personals(e), Personals(s), Personals(q));
    x + e + s + q
  }

  /** The rendered document. */
  function Render(d: ResumeData): seq<Block>
  {
    Top(d.personalDetails) + Sections(d)
  }

  /** The page opens with the name and then the title, whatever the record
      holds. */
  lemma PageStart(d: ResumeData)
    ensures |Render(d)| >= 2
    ensures Render(d)[0] == Text(Personal(Name), d.personalDetails.name)
    ensures Render(d)[1] == Text(Personal(Title), d.personalDetails.title)
  {
    TopStart(d.personalDetails);
    FirstTwo(Top(d.personalDetails), Sections(d));
  }

  /** Section headings appear in the fixed order Experience, Education,
      Skills, Projects, each exactly when its section has entries; there is
      no heading for the summary, so a record whose four sections are empty
      renders no heading at all. */
  lemma SectionHeadings(d: ResumeData)
    ensures Headings(Render(d)) == When(|d.experience| > 0, "Experience") + When(|d.education| > 0, "Education")
                                   + When(|d.skills| > 0, "Skills") + When(|d.projects| > 0, "Projects")
    ensures d.experience == [] && d.education == [] && d.skills == [] && d.projects == [] ==>
      Headings(Render(d)) == []
  {
    ProjectionsAppend(Top(d.personalDetails), Sections(d));
  }

  /** The personal fields are shown in the order name, title, email, phone,
      location, summary; name and title always, the others exactly when
      non-empty. */
  lemma PersonalOrder(d: ResumeData)
    ensures Personals(Render(d)) == ShownPersonals(d.personalDetails)
  {
    ProjectionsAppend(Top(d.personalDetails), Sections(d));
  }

  /** Name and title are always shown; email, phone, location and the
      summary exactly when non-empty. */
  lemma PersonalFieldShown(d: ResumeData, f: PersonalField)
    ensures f in Personals(Render(d)) <==> f == Name || f == Title || PersonalValue(d.personalDetails, f) != ""
  {
    PersonalOrder(d);
    ShownPersonalsIff(d.personalDetails, f);
  }

  /** The only links are the project links, in project order: one per
      project with a non-empty url, showing the url itself. */
  lemma LinksInOrder(d: ResumeData)
    ensures Links(Render(d)) == FlatMap(d.projects, UrlLink)
  {
    ProjectionsAppend(Top(d.personalDetails), Sections(d));
  }

  /** A link is rendered exactly when it is the link of a project with a
      non-empty url, captioned with that url. */
  lemma ProjectLinkShown(d: ResumeData, b: Block)
    requires b.Link?
    ensures b in Render(d) <==>
      exists k :: 0 <= k < |d.projects| && d.projects[k].url != "" && b == Link(d.projects[k].url, d.projects[k].url)
  {
    LinksInOrder(d);
    UrlLinkMember(Render(d), d.projects, b);
  }

  /** Experience entries are rendered one block group per entry, in section
      order, right after the header, the summary and the Experience
      heading. */
  lemma ExperienceInOrder(d: ResumeData, i: nat)
    requires i < |d.experience|
    ensures var o := ExperienceStart(d) + 1 + 4 * i;
      |Render(d)| >= o + 4 && Render(d)[o .. o + 4] == ExperienceEntry(d.experience[i])
  {
    TopAndSections(d);
    ExperienceAfter(Render(d), Top(d.personalDetails), d, i, ExperienceStart(d));
  }

  /** Where the Experience section starts: right after the top. */
  function ExperienceStart(d: ResumeData): nat
  {
    |Top(d.personalDetails)|
  }

  /** Where the Education section starts: right after the top and the
      Experience section. */
  function EducationStart(d: ResumeData): nat
  {
    ExperienceStart(d) + |ExperienceSection("Experience", d.experience)|
  }

  /** The document is the top followed by the sections. */
  lemma TopAndSections(d: ResumeData)
    ensures Render(d) == Top(d.personalDetails) + Sections(d)
  {
  }

  /** Experience entry `i` follows whatever precedes the sections, the
      Experience heading and the `i` entries before it. */
  lemma ExperienceAfter(r: seq<Block>, pre: seq<Block>, d: ResumeData, i: nat, o: int)
    requires i < |d.experience| && r == pre + Sections(d) && o == |pre|
    ensures var k := o + 1 + 4 * i; |r| >= k + 4 && r[k .. k + 4] == ExperienceEntry(d.experience[i])
  {
    ExperienceAfterParts(pre, "Experience", d.experience, EducationSection("Education", d.education),
                         SkillsSection("Skills", d.skills), UrlProjectsSection("Projects", d.projects), i, o);
  }

  /** Education entries are rendered one block group per entry, in section
      order, right after the experience section and the Education
      heading. */
  lemma EducationInOrder(d: ResumeData, i: nat)
    requires i < |d.education|
    ensures var o := EducationStart(d) + 1 + 4 * i;
      |Render(d)| >= o + 4 && Render(d)[o .. o + 4] == EducationEntry(d.education[i])
  {
    TopAndSections(d);
    EducationAfter(Render(d), Top(d.personalDetails), d, i, EducationStart(d));
  }

  /** Education entry `i` follows whatever precedes the sections, the
      experience section, the Education heading and the `i` entries before
      it. */
  lemma EducationAfter(r: seq<Block>, pre: seq<Block>, d: ResumeData, i: nat, o: int)
    requires i < |d.education| && r == pre + Sections(d)
    requires o == |pre| + |ExperienceSection("Experience", d.experience)|
    ensures var k := o + 1 + 4 * i; |r| >= k + 4 && r[k .. k + 4] == EducationEntry(d.education[i])
  {
    EducationAfterParts(pre, ExperienceSection("Experience", d.experience), "Education", d.education,
                        SkillsSection("Skills", d.skills), UrlProjectsSection("Projects", d.projects), i, o);
  }

  /** Every text the document shows, part of the record by part: the
      personal values in the order name, title, email, phone, location,
      summary, and the texts of every experience, education, skill and
      project entry in section order. Nothing is shown twice or out of
      order, and nothing of the record is left out. */
  lemma ItemsInOrder(d: ResumeData, k: Kind)
    ensures Items(Render(d), k) == RecordTexts(d, k)
  {
    ItemsAppend(Top(d.personalDetails), Sections(d), k);
    TopItems(d.personalDetails, k);
    SectionsItems(d, k);
  }

  lemma TopItems(p: PersonalDetails, k: Kind)
    ensures Items(Top(p), k) == if k == PersonalKind then ShownValues(p) else []
  {
    ItemsAppend(HeaderBlocks(p), SummaryParagraph(p), k);
    HeaderItems(p, k);
    ContactItemItems(p, Summary, k);
  }

  lemma SectionsItems(d: ResumeData, k: Kind)
    ensures Items(Sections(d), k) == EntryTexts(d, k)
  {
    var x, e := ExperienceSection("Experience", d.experience), EducationSection("Education", d.education);
    var s, q := SkillsSection("Skills", d.skills), UrlProjectsSection("Projects", d.projects);
    ItemsAppend4(x, e, s, q, k);
    ExperienceSectionItems("Experience", d.experience, k);
    EducationSectionItems("Education", d.education, k);
    SkillsSectionItems("Skills", d.skills, k);
    UrlProjectsSectionItems("Projects", d.projects, k);
    EntryTextsOfSections(d, k, Items(x, k), Items(e, k), Items(s, k), Items(q, k));
  }

  /** Across parts, the document shows the personal values first, then
      every experience, education, skill and project entry's texts, in that
      order. */
  lemma TextsInOrder(d: ResumeData)
    ensures Texts(Render(d)) == RecordOrder(d)
  {
    var x, e := ExperienceSection("Experience", d.experience), EducationSection("Education", d.education);
    var s, q := SkillsSection("Skills", d.skills), UrlProjectsSection("Projects", d.projects);
    TextsAppend(Top(d.personalDetails), Sections(d));
    TopTexts(d.personalDetails);
    ExperienceSectionTexts("Experience", d.experience);
    EducationSectionTexts("Education", d.education);
    SkillsSectionTexts("Skills", d.skills);
    UrlProjectsSectionTexts("Projects", d.projects);
    FourSectionsTexts(x, e, s, q, d);
  }

  lemma TopTexts(p: PersonalDetails)
    ensures Texts(Top(p)) == ShownValues(p)
  {
    TextsAppend(HeaderBlocks(p), SummaryParagraph(p));
    HeaderTexts(p);
    ContactItemTexts(p, Summary);
  }

  /** The document is the top and then the four sections, in order. */
  lemma RenderParts(d: ResumeData)
    ensures Render(d) == Top(d.personalDetails) + Sections(d)
    ensures Sections(d) == ExperienceSection("Experience", d.experience) + EducationSection("Education", d.education)
                           + SkillsSection("Skills", d.skills) + UrlProjectsSection("Projects", d.projects)
  {
  }

  /** Where the Skills section starts: after the top and the experience
      and education sections. */
  function SkillsStart(d: ResumeData): nat
  {
    |Top(d.personalDetails)| + |ExperienceSection("Experience", d.experience)| + |EducationSection("Education", d.education)|
  }

  /** Where the Projects section starts: right after the Skills section. */
  function ProjectsStart(d: ResumeData): nat
  {
    SkillsStart(d) + |SkillsSection("Skills", d.skills)|
  }

  /** The Skills heading follows the top and the experience and education
      sections, and skill `i`'s chip stands `i + 1` blocks after it. */
  lemma SkillsInOrder(d: ResumeData, i: nat)
    requires i < |d.skills|
    ensures ChipAt(Render(d), SkillsStart(d), "Skills", d.skills, i)
  {
    RenderParts(d);
    SkillsInSections(Render(d), Top(d.personalDetails), Sections(d), ExperienceSection("Experience", d.experience),
                     EducationSection("Education", d.education), "Skills", d.skills, UrlProjectsSection("Projects", d.projects), i, SkillsStart(d));
  }

  /** The Projects heading follows the Skills section, and project `i`'s
      blocks follow it and the blocks of the `i` projects before it. */
  lemma ProjectsInOrder(d: ResumeData, i: nat)
    requires i < |d.projects|
    ensures ListEntryAt(Render(d), ProjectsStart(d), "Projects", d.projects, UrlProjectEntry, i)
  {
    RenderParts(d);
    LastListInSections(Render(d), Top(d.personalDetails), Sections(d), ExperienceSection("Experience", d.experience),
                       EducationSection("Education", d.education), SkillsSection("Skills", d.skills),
                       "Projects", d.projects, UrlProjectEntry, i, ProjectsStart(d));
  }
}
