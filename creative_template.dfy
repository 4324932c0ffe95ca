/** The creative layout: a sidebar (an initials badge, name, title, an
    always-present Contact section, then Skills and Projects) followed by
    the main column (About Me, Experience, Education). Project links read
    "View Project". */
module CreativeTemplate {
  import opened ResumeTypes
  import opened Blocks
  import opened Badge
  import opened ShownItems

  // ---------------------------------------------------------------------
  // The document
  // ---------------------------------------------------------------------

  /** The badge, name and title at the top of the sidebar. */
  function Identity(p: PersonalDetails): (r: seq<Block>)
    ensures |r| == 3
    ensures r[0] == Text(NameInitials, Initials(p.name))
    ensures r[1] == Text(Personal(Name), p.name) && r[2] == Text(Personal(Title), p.title)
    ensures Headings(r) == [] && Links(r) == [] && Personals(r) == [Name, Title]
  {
    var b, n, t := Text(NameInitials, Initials(p.name)), Text(Personal(Name), p.name), Text(Personal(Title), p.title);
    SingleProjections(b);
    SingleProjections(n);
    SingleProjections(t);
    ProjectionsAppend([b], [n]);
    ProjectionsAppend([b] + [n], [t]);
    [b] + [n] + [t]
  }

  /** The Contact section, whose heading is shown even when no contact field
      is. */
  function ContactSection(p: PersonalDetails): (r: seq<Block>)
    ensures |r| >= 1 && r[0] == Heading("Contact")
    ensures Headings(r) == ["Contact"] && Links(r) == [] && Personals(r) == ContactFields(p)
  {
    SingleProjections(Heading("Contact"));
    ProjectionsAppend([Heading("Contact")], ContactBlocks(p));
    [Heading("Contact")] + ContactBlocks(p)
  }

  /** The part of the sidebar that is always there: identity and contact. */
  function SidebarTop(p: PersonalDetails): (r: seq<Block>)
    ensures Headings(r) == ["Contact"] && Links(r) == []
    ensures Personals(r) == [Name, Title] + ContactFields(p)
  {
    ProjectionsAppend(Identity(p), ContactSection(p));
    Identity(p) + ContactSection(p)
  }

  /** The sidebar: identity, contact, then Skills and Projects when they
      have entries. */
  function Sidebar(d: ResumeData): (r: seq<Block>)
    ensures Headings(r) == ["Contact"] + When(|d.skills| > 0, "Skills") + When(|d.projects| > 0, "Projects")
    ensures Personals(r) == [Name, Title] + ContactFields(d.personalDetails)
    ensures Links(r) == FlatMap(d.projects, ViewLink)
  {
    var t := SidebarTop(d.personalDetails);
    var s, q := SkillsSection("Skills", d.skills), ViewProjectsSection("Projects", d.projects);
    ProjectionsAppend(t, s);
    ProjectionsAppend(t + s, q);
    Drop3(Personals(t), Personals(s), Personals(q));
    Drop3(Links(t), Links(s), Links(q));
    t + s + q
  }

  /** A slice that ends before the last of three parts placed after `pre`. */
  lemma SliceBeforeLast<T>(pre: seq<T>, a: seq<T>, b: seq<T>, c: seq<T>, o: nat, n: nat)
    requires o + n <= |pre + a + b|
    ensures |pre + (a + b + c)| >= o + n && (pre + (a + b + c))[o .. o + n] == (pre + a + b)[o .. o + n]
  {
    assert pre + (a + b + c) == (pre + a + b) + c;
  }

  /** The main column: About Me, Experience and Education, each only when
      it has content. */
  function MainColumn(d: ResumeData): (r: seq<Block>)
    ensures Headings(r) == When(d.personalDetails.summary != "", "About Me")
      + When(|d.experience| > 0, "Experience") + When(|d.education| > 0, "Education")
    ensures Personals(r) == When(d.personalDetails.summary != "", Summary)
    ensures Links(r) == []
  {
    var a := SummarySection("About Me", d.personalDetails);
    var x, e := ExperienceSection("Experience", d.experience), EducationSection("Education", d.education);
    ProjectionsAppend(a, x);
    ProjectionsAppend(a + x, e);
    a + x + e
  }

  /** The rendered document: the sidebar, then the main column. */
  function Render(d: ResumeData): seq<Block>
  {
    Sidebar(d) + MainColumn(d)
  }

  /** The page opens with the initials badge, the name, the title and the
      Contact heading, whatever the record holds. */
  lemma PageStart(d: ResumeData)
    ensures var p, r := d.personalDetails, Render(d);
      && |r| >= 4
      && r[0] == Text(NameInitials, Initials(p.name))
      && r[1] == Text(Personal(Name), p.name)
      && r[2] == Text(Personal(Title), p.title)
      && r[3] == Heading("Contact")
  {
    var p := d.personalDetails;
    FirstFour(Identity(p), ContactSection(p), SkillsSection("Skills", d.skills),
              ViewProjectsSection("Projects", d.projects), MainColumn(d));
  }

  /** The first four elements of a five-part sequence whose first part has
      three elements. */
  lemma FirstFour<T>(a: seq<T>, b: seq<T>, c: seq<T>, d: seq<T>, e: seq<T>)
    requires |a| == 3 && |b| >= 1
    ensures var r := a + b + c + d + e;
      |r| >= 4 && r[0] == a[0] && r[1] == a[1] && r[2] == a[2] && r[3] == b[0]
  {
  }

  /** Headings: Contact always, then Skills and Projects in the sidebar,
      then About Me, Experience and Education in the main column, each of
      those exactly when it has content. */
  lemma SectionHeadings(d: ResumeData)
    ensures Headings(Render(d)) == ["Contact"] + When(|d.skills| > 0, "Skills") + When(|d.projects| > 0, "Projects")
      + (When(d.personalDetails.summary != "", "About Me")
         + When(|d.experience| > 0, "Experience") + When(|d.education| > 0, "Education"))
  {
    ProjectionsAppend(Sidebar(d), MainColumn(d));
  }

  /** The personal fields appear in the order name, title, email, phone,
      location, summary: the summary moves to the main column, after the
      whole sidebar. The initials badge is not a personal field. */
  lemma PersonalOrder(d: ResumeData)
    ensures Personals(Render(d)) == ShownPersonals(d.personalDetails)
  {
    ProjectionsAppend(Sidebar(d), MainColumn(d));
  }

  /** Name and title are always shown; email, phone, location and the
      summary exactly when non-empty. */
  lemma PersonalFieldShown(d: ResumeData, f: PersonalField)
    ensures f in Personals(Render(d)) <==> f == Name || f == Title || PersonalValue(d.personalDetails, f) != ""
  {
    PersonalOrder(d);
    ShownPersonalsIff(d.personalDetails, f);
  }

  /** The only links are the project links, in project order, one per
      project with a non-empty url. */
  lemma LinksInOrder(d: ResumeData)
    ensures Links(Render(d)) == FlatMap(d.projects, ViewLink)
  {
    ProjectionsAppend(Sidebar(d), MainColumn(d));
  }

  /** A link is rendered exactly when it is a "View Project" link to the
      non-empty url of some project. */
  lemma ProjectLinkShown(d: ResumeData, b: Block)
    requires b.Link?
    ensures b in Render(d) <==>
      exists k :: 0 <= k < |d.projects| && d.projects[k].url != "" && b == Link(d.projects[k].url, "View Project")
  {
    LinksInOrder(d);
    ViewLinkMember(Render(d), d.projects, b);
  }

  /** Where the Experience section starts: after the sidebar and the
      About Me section. */
  function ExperienceStart(d: ResumeData): nat
  {
    |Sidebar(d)| + |SummarySection("About Me", d.personalDetails)|
  }

  /** Experience entries follow the Experience heading of the main column,
      one block group per entry, in section order. */
  lemma ExperienceInOrder(d: ResumeData, i: nat)
    requires i < |d.experience|
    ensures var o := ExperienceStart(d) + 1 + 4 * i;
      |Render(d)| >= o + 4 && Render(d)[o .. o + 4] == ExperienceEntry(d.experience[i])
  {
    MainColumnParts(d);
    Columns(d);
    ExperienceAfter(Render(d), Sidebar(d), SummarySection("About Me", d.personalDetails), MainColumn(d),
                    d.experience, EducationSection("Education", d.education), i, ExperienceStart(d));
  }

  /** The document is the sidebar followed by the main column. */
  lemma Columns(d: ResumeData)
    ensures Render(d) == Sidebar(d) + MainColumn(d)
  {
  }

  /** The main column is About Me, Experience and Education, in that order. */
  lemma MainColumnParts(d: ResumeData)
    ensures MainColumn(d) == SummarySection("About Me", d.personalDetails)
      + ExperienceSection("Experience", d.experience) + EducationSection("Education", d.education)
  {
  }

  lemma ExperienceAfter(r: seq<Block>, pre: seq<Block>, a: seq<Block>, mc: seq<Block>, s: seq<Experience>, e: seq<Block>,
                        i: nat, o: int)
    requires i < |s| && r == pre + mc && mc == a + ExperienceSection("Experience", s) + e && o == |pre| + |a|
    ensures var k := o + 1 + 4 * i; |r| >= k + 4 && r[k .. k + 4] == ExperienceEntry(s[i])
  {
    ExperienceAt(pre + a, "Experience", s, i);
    SliceBeforeLast(pre, a, ExperienceSection("Experience", s), e, o + 1 + 4 * i, 4);
  }

  /** Where the Education section starts: after the sidebar, About Me and
      Experience. */
  function EducationStart(d: ResumeData): nat
  {
    |Sidebar(d)| + |SummarySection("About Me", d.personalDetails) + ExperienceSection("Experience", d.experience)|
  }

  /** Education entries close the main column, one block group per entry,
      in section order. */
  lemma EducationInOrder(d: ResumeData, i: nat)
    requires i < |d.education|
    ensures var o := EducationStart(d) + 1 + 4 * i;
      |Render(d)| >= o + 4 && Render(d)[o .. o + 4] == EducationEntry(d.education[i])
  {
    MainColumnParts(d);
    Columns(d);
    EducationAfter(Render(d), Sidebar(d), SummarySection("About Me", d.personalDetails)
                   + ExperienceSection("Experience", d.experience), MainColumn(d), d.education, i, EducationStart(d));
  }

  lemma EducationAfter(r: seq<Block>, pre: seq<Block>, ax: seq<Block>, mc: seq<Block>, s: seq<Education>, i: nat, o: int)
    requires i < |s| && r == pre + mc && mc == ax + EducationSection("Education", s) && o == |pre| + |ax|
    ensures var k := o + 1 + 4 * i; |r| >= k + 4 && r[k .. k + 4] == EducationEntry(s[i])
  {
    EducationAt(pre + ax, "Education", s, i);
    assert r == pre + ax + EducationSection("Education", s);
  }

  /** Every text the document shows, part of the record by part: the
      initials badge, then the personal values in the order name, title,
      email, phone, location, summary, and the texts of every experience,
      education, skill and project entry in section order. */
  lemma ItemsInOrder(d: ResumeData, k: Kind)
    ensures Items(Render(d), k) == When(k == BadgeKind, Initials(d.personalDetails.name)) + RecordTexts(d, k)
  {
    SidebarItems(d, k);
    MainColumnItems(d, k);
    ColumnsItems(Sidebar(d), MainColumn(d), d, k, Initials(d.personalDetails.name));
  }

  /** The badge, name and title show the initials, the name and the title. */
  lemma IdentityItems(p: PersonalDetails, k: Kind)
    ensures Items(Identity(p), k) ==
      When(k == BadgeKind, Initials(p.name)) + (if k == PersonalKind then [p.name] + [p.title] else [])
  {
    var b, n, t := Text(NameInitials, Initials(p.name)), Text(Personal(Name), p.name), Text(Personal(Title), p.title);
    ItemsAppend([b] + [n], [t], k);
    ItemsAppend([b], [n], k);
    ItemsSingle(b, k);
    ItemsSingle(n, k);
    ItemsSingle(t, k);
  }

  lemma ContactSectionItems(p: PersonalDetails, k: Kind)
    ensures Items(ContactSection(p), k) == if k == PersonalKind then ContactTexts(p) else []
  {
    ItemsAfterHeading("Contact", ContactBlocks(p), k);
    ContactBlocksItems(p, k);
  }

  /** The sidebar shows the badge, the name, the title, the contact values,
      the skills and the projects' texts. */
  lemma SidebarItems(d: ResumeData, k: Kind)
    ensures var p := d.personalDetails;
      Items(Sidebar(d), k) == When(k == BadgeKind, Initials(p.name)) + (if k == PersonalKind then [p.name] + [p.title] else [])
        + (if k == PersonalKind then ContactTexts(p) else [])
        + (if k == SkillKind then FlatMap(d.skills, SkillName) else [])
        + (if k == ProjectKind then FlatMap(d.projects, ProjectTexts) else [])
  {
    var p := d.personalDetails;
    SidebarTopItems(p, k);
    SkillsSectionItems("Skills", d.skills, k);
    ViewProjectsSectionItems("Projects", d.projects, k);
    SidebarParts(SidebarTop(p), SkillsSection("Skills", d.skills), ViewProjectsSection("Projects", d.projects),
                 d, k, Initials(p.name));
  }

  /** The top of the sidebar shows the badge, the name, the title and the
      contact values. */
  lemma SidebarTopItems(p: PersonalDetails, k: Kind)
    ensures Items(SidebarTop(p), k) == When(k == BadgeKind, Initials(p.name))
      + (if k == PersonalKind then [p.name] + [p.title] else []) + (if k == PersonalKind then ContactTexts(p) else [])
  {
    ItemsAppend(Identity(p), ContactSection(p), k);
    IdentityItems(p, k);
    ContactSectionItems(p, k);
  }

  /** The three parts of the sidebar, whatever blocks carry them. */
  lemma SidebarParts(t: seq<Block>, s: seq<Block>, q: seq<Block>, d: ResumeData, k: Kind, badge: string)
    requires Items(t, k) == When(k == BadgeKind, badge)
      + (if k == PersonalKind then [d.personalDetails.name] + [d.personalDetails.title] else [])
      + (if k == PersonalKind then ContactTexts(d.personalDetails) else [])
    requires Items(s, k) == if k == SkillKind then FlatMap(d.skills, SkillName) else []
    requires Items(q, k) == if k == ProjectKind then FlatMap(d.projects, ProjectTexts) else []
    ensures var p := d.personalDetails;
      Items(t + s + q, k) == When(k == BadgeKind, badge) + (if k == PersonalKind then [p.name] + [p.title] else [])
        + (if k == PersonalKind then ContactTexts(p) else [])
        + (if k == SkillKind then FlatMap(d.skills, SkillName) else [])
        + (if k == ProjectKind then FlatMap(d.projects, ProjectTexts) else [])
  {
    ItemsAppend(t + s, q, k);
    ItemsAppend(t, s, k);
  }

  /** The main column shows the summary and the experience and education
      entries' texts. */
  lemma MainColumnItems(d: ResumeData, k: Kind)
    ensures Items(MainColumn(d), k) ==
      (if k == PersonalKind then When(d.personalDetails.summary != "", d.personalDetails.summary) else [])
      + (if k == ExperienceKind then FlatMap(d.experience, ExperienceTexts) else [])
      + (if k == EducationKind then FlatMap(d.education, EducationTexts) else [])
  {
    var a := SummarySection("About Me", d.personalDetails);
    var x, e := ExperienceSection("Experience", d.experience), EducationSection("Education", d.education);
    ItemsAppend(a + x, e, k);
    ItemsAppend(a, x, k);
    SummarySectionItems("About Me", d.personalDetails, k);
    ExperienceSectionItems("Experience", d.experience, k);
    EducationSectionItems("Education", d.education, k);
  }

  /** Joining the two columns' texts gives the badge followed by the
      record's texts. */
  lemma ColumnsItems(sb: seq<Block>, mc: seq<Block>, d: ResumeData, k: Kind, badge: string)
    requires var p := d.personalDetails;
      Items(sb, k) == When(k == BadgeKind, badge) + (if k == PersonalKind then [p.name] + [p.title] else [])
        + (if k == PersonalKind then ContactTexts(p) else [])
        + (if k == SkillKind then FlatMap(d.skills, SkillName) else [])
        + (if k == ProjectKind then FlatMap(d.projects, ProjectTexts) else [])
    requires Items(mc, k) ==
      (if k == PersonalKind then When(d.personalDetails.summary != "", d.personalDetails.summary) else [])
      + (if k == ExperienceKind then FlatMap(d.experience, ExperienceTexts) else [])
      + (if k == EducationKind then FlatMap(d.education, EducationTexts) else [])
    ensures Items(sb + mc, k) == When(k == BadgeKind, badge) + RecordTexts(d, k)
  {
    var p := d.personalDetails;
    ItemsAppend(sb, mc, k);
    CreativeTexts(d, k, badge,
      When(k == BadgeKind, badge) + (if k == PersonalKind then [p.name] + [p.title] else []),
      if k == PersonalKind then ContactTexts(p) else [],
      if k == SkillKind then FlatMap(d.skills, SkillName) else [],
      if k == ProjectKind then FlatMap(d.projects, ProjectTexts) else [],
      if k == PersonalKind then When(p.summary != "", p.summary) else [],
      if k == ExperienceKind then FlatMap(d.experience, ExperienceTexts) else [],
      if k == EducationKind then FlatMap(d.education, EducationTexts) else []);
  }

  lemma CreativeTexts(d: ResumeData, k: Kind, badge: string, i: seq<string>, c: seq<string>, s: seq<string>,
                      q: seq<string>, a: seq<string>, x: seq<string>, e: seq<string>)
    requires i == When(k == BadgeKind, badge)
                  + (if k == PersonalKind then [d.personalDetails.name] + [d.personalDetails.title] else [])
    requires c == if k == PersonalKind then ContactTexts(d.personalDetails) else []
    requires s == if k == SkillKind then FlatMap(d.skills, SkillName) else []
    requires q == if k == ProjectKind then FlatMap(d.projects, ProjectTexts) else []
    requires a == if k == PersonalKind then When(d.personalDetails.summary != "", d.personalDetails.summary) else []
    requires x == if k == ExperienceKind then FlatMap(d.experience, ExperienceTexts) else []
    requires e == if k == EducationKind then FlatMap(d.education, EducationTexts) else []
    ensures i + c + s + q + (a + x + e) == When(k == BadgeKind, badge) + RecordTexts(d, k)
  {
    if k == PersonalKind {
      PersonalTexts(d.personalDetails, i, c, a);
    } else {
      OtherTexts(d, k, badge, s, q, x, e);
    }
  }

  lemma PersonalTexts(p: PersonalDetails, i: seq<string>, c: seq<string>, a: seq<string>)
    requires i == [] + ([p.name] + [p.title]) && c == ContactTexts(p) && a == When(p.summary != "", p.summary)
    ensures i + c + [] + [] + (a + [] + []) == [] + (ShownValues(p) + [])
  {
  }

  lemma OtherTexts(d: ResumeData, k: Kind, badge: string, s: seq<string>, q: seq<string>, x: seq<string>, e: seq<string>)
    requires k != PersonalKind
    requires s == if k == SkillKind then FlatMap(d.skills, SkillName) else []
    requires q == if k == ProjectKind then FlatMap(d.projects, ProjectTexts) else []
    requires x == if k == ExperienceKind then FlatMap(d.experience, ExperienceTexts) else []
    requires e == if k == EducationKind then FlatMap(d.education, EducationTexts) else []
    ensures When(k == BadgeKind, badge) + [] + [] + s + q + ([] + x + e) == When(k == BadgeKind, badge) + ([] + EntryTexts(d, k))
  {
  }

  // ---------------------------------------------------------------------
  // Order across parts
  // ---------------------------------------------------------------------

  /** The texts in the order the creative layout shows them: the initials,
      name, title and contact values, the skills and the projects' texts in
      the sidebar, then the summary and the experience and education
      entries' texts in the main column. */
  function CreativeOrder(d: ResumeData): seq<string>
  {
    var p := d.personalDetails;
    [Initials(p.name)] + [p.name] + [p.title] + ContactTexts(p)
    + FlatMap(d.skills, SkillName) + FlatMap(d.projects, ProjectTexts)
    + (When(p.summary != "", p.summary)
       + FlatMap(d.experience, ExperienceTexts) + FlatMap(d.education, EducationTexts))
  }

  /** Across parts, the document shows every text in creative order: the
      whole sidebar before the main column. */
  lemma TextsInOrder(d: ResumeData)
    ensures Texts(Render(d)) == CreativeOrder(d)
  {
    TextsAppend(Sidebar(d), MainColumn(d));
    SidebarTexts(d);
    MainColumnTexts(d);
  }

  lemma IdentityTexts(p: PersonalDetails)
    ensures Texts(Identity(p)) == [Initials(p.name)] + [p.name] + [p.title]
  {
    var b, n, t := Text(NameInitials, Initials(p.name)), Text(Personal(Name), p.name), Text(Personal(Title), p.title);
    TextsAppend([b] + [n], [t]);
    TextsAppend([b], [n]);
    TextsSingle(b);
    TextsSingle(n);
    TextsSingle(t);
  }

  lemma ContactSectionTexts(p: PersonalDetails)
    ensures Texts(ContactSection(p)) == ContactTexts(p)
  {
    TextsAppend([Heading("Contact")], ContactBlocks(p));
    TextsSingle(Heading("Contact"));
    ContactBlocksTexts(p);
  }

  /** The sidebar shows the identity, the contact values, the skills and
      the projects' texts, in that order. */
  lemma SidebarTexts(d: ResumeData)
    ensures var p := d.personalDetails;
      Texts(Sidebar(d)) == [Initials(p.name)] + [p.name] + [p.title] + ContactTexts(p)
        + FlatMap(d.skills, SkillName) + FlatMap(d.projects, ProjectTexts)
  {
    var p := d.personalDetails;
    var s, q := SkillsSection("Skills", d.skills), ViewProjectsSection("Projects", d.projects);
    TextsAppend(SidebarTop(p) + s, q);
    TextsAppend(SidebarTop(p), s);
    TextsAppend(Identity(p), ContactSection(p));
    IdentityTexts(p);
    ContactSectionTexts(p);
    SkillsSectionTexts("Skills", d.skills);
    ViewProjectsSectionTexts("Projects", d.projects);
  }

  /** The main column shows the summary and the experience and education
      entries' texts, in that order. */
  lemma MainColumnTexts(d: ResumeData)
    ensures Texts(MainColumn(d)) == When(d.personalDetails.summary != "", d.personalDetails.summary)
      + FlatMap(d.experience, ExperienceTexts) + FlatMap(d.education, EducationTexts)
  {
    var a := SummarySection("About Me", d.personalDetails);
    var x, e := ExperienceSection("Experience", d.experience), EducationSection("Education", d.education);
    TextsAppend(a + x, e);
    TextsAppend(a, x);
    SummarySectionTexts("About Me", d.personalDetails);
    ExperienceSectionTexts("Experience", d.experience);
    EducationSectionTexts("Education", d.education);
  }

  /** The document is the sidebar's fixed top, Skills, Projects and the
      main column, in that order. */
  lemma RenderParts(d: ResumeData)
    ensures Render(d) == SidebarTop(d.personalDetails) + SkillsSection("Skills", d.skills)
                         + (ViewProjectsSection("Projects", d.projects) + MainColumn(d))
  {
    Columns(d);
    SidebarBlocks(d);
    Regroup(SidebarTop(d.personalDetails), SkillsSection("Skills", d.skills),
            ViewProjectsSection("Projects", d.projects), MainColumn(d));
  }

  /** The same, with the Projects section written as the list it is. */
  lemma ProjectsParts(d: ResumeData)
    ensures Render(d) == SidebarTop(d.personalDetails) + SkillsSection("Skills", d.skills)
                         + ListSection("Projects", d.projects, ViewProjectEntry) + MainColumn(d)
    ensures ProjectsStart(d) == |SidebarTop(d.personalDetails) + SkillsSection("Skills", d.skills)|
  {
    Columns(d);
    SidebarBlocks(d);
  }

  /** The sidebar is identity and contact, Skills and Projects. */
  lemma SidebarBlocks(d: ResumeData)
    ensures Sidebar(d) == SidebarTop(d.personalDetails) + SkillsSection("Skills", d.skills)
                          + ViewProjectsSection("Projects", d.projects)
  {
  }

  lemma Regroup<T>(a: seq<T>, b: seq<T>, c: seq<T>, e: seq<T>)
    ensures a + b + c + e == a + b + (c + e)
  {
  }

  /** Where the Skills section starts: right after identity and contact. */
  function SkillsStart(d: ResumeData): nat
  {
    |SidebarTop(d.personalDetails)|
  }

  /** Where the Projects section starts: right after the Skills section. */
  function ProjectsStart(d: ResumeData): nat
  {
    SkillsStart(d) + |SkillsSection("Skills", d.skills)|
  }

  /** The Skills heading follows identity and contact, and skill `i`'s
      chip stands `i + 1` blocks after it. */
  lemma SkillsInOrder(d: ResumeData, i: nat)
    requires i < |d.skills|
    ensures ChipAt(Render(d), SkillsStart(d), "Skills", d.skills, i)
  {
    RenderParts(d);
    SkillsBetween(Render(d), SidebarTop(d.personalDetails), "Skills", d.skills,
                  ViewProjectsSection("Projects", d.projects) + MainColumn(d), i, SkillsStart(d));
  }

  /** The Projects heading follows the Skills section, and project `i`'s
      blocks follow it and the blocks of the `i` projects before it. */
  lemma ProjectsInOrder(d: ResumeData, i: nat)
    requires i < |d.projects|
    ensures ListEntryAt(Render(d), ProjectsStart(d), "Projects", d.projects, ViewProjectEntry, i)
  {
    ProjectsParts(d);
    ListBetween(Render(d), SidebarTop(d.personalDetails) + SkillsSection("Skills", d.skills), "Projects",
                d.projects, ViewProjectEntry, MainColumn(d), i, ProjectsStart(d));
  }
}
