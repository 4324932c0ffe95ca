/** What a document shows of each part of the record: the texts of its
    blocks, part by part, in document order. The reference lists below are
    built from the record alone, so a layout that shows an entry's texts in
    the wrong order, drops one or shows another entry's is caught. */
module ShownItems {
  import opened ResumeTypes
  import opened Blocks

  /** The part of the record a text block comes from. */
  datatype Kind = PersonalKind | BadgeKind | EducationKind | ExperienceKind | SkillKind | ProjectKind

  function KindOf(s: Source): Kind
  {
    match s
    case Personal(_) => PersonalKind
    case NameInitials => BadgeKind
    case OfEducation(_) => EducationKind
    case OfExperience(_) => ExperienceKind
    case OfSkill => SkillKind
    case OfProject(_) => ProjectKind
  }

  function ItemOf(b: Block, k: Kind): seq<string>
  {
    if b.Text? && KindOf(b.source) == k then [b.text] else []
  }

  /** The texts `bs` shows from part `k` of the record, in document order. */
  function Items(bs: seq<Block>, k: Kind): seq<string>
  {
    if bs == [] then [] else ItemOf(bs[0], k) + Items(bs[1..], k)
  }

  lemma {:induction false} ItemsAppend(a: seq<Block>, b: seq<Block>, k: Kind)
    ensures Items(a + b, k) == Items(a, k) + Items(b, k)
  {
    if a == [] {
      assert a + b == b;
    } else {
      assert (a + b)[1..] == a[1..] + b;
      ItemsAppend(a[1..], b, k);
    }
  }

  lemma ItemsSingle(b: Block, k: Kind)
    ensures Items([b], k) == ItemOf(b, k)
  {
    assert [b][1..] == [];
  }

  /** A heading shows no text. */
  lemma ItemsAfterHeading(title: string, c: seq<Block>, k: Kind)
    ensures Items([Heading(title)] + c, k) == Items(c, k)
  {
    ItemsAppend([Heading(title)], c, k);
    ItemsSingle(Heading(title), k);
  }

  lemma ItemsAppend4(a: seq<Block>, b: seq<Block>, c: seq<Block>, d: seq<Block>, k: Kind)
    ensures Items(a + b + c + d, k) == Items(a, k) + Items(b, k) + Items(c, k) + Items(d, k)
  {
    ItemsAppend(a + b + c, d, k);
    ItemsAppend(a + b, c, k);
    ItemsAppend(a, b, k);
  }

  lemma ItemsFour(a: Block, b: Block, c: Block, d: Block, k: Kind)
    ensures Items([a, b, c, d], k) == ItemOf(a, k) + ItemOf(b, k) + ItemOf(c, k) + ItemOf(d, k)
  {
    assert [a, b, c, d] == [a] + [b] + [c] + [d];
    ItemsAppend([a] + [b] + [c], [d], k);
    ItemsAppend([a] + [b], [c], k);
    ItemsAppend([a], [b], k);
    ItemsSingle(a, k);
    ItemsSingle(b, k);
    ItemsSingle(c, k);
    ItemsSingle(d, k);
  }

  // ---------------------------------------------------------------------
  // The reference: what the record holds
  // ---------------------------------------------------------------------

  /** An experience entry's texts: position, date, company, description. */
  function ExperienceTexts(e: Experience): seq<string> { [e.position, e.date, e.company, e.description] }

  /** An education entry's texts: degree, date, institution, description. */
  function EducationTexts(e: Education): seq<string> { [e.degree, e.date, e.institution, e.description] }

  function SkillName(s: Skill): seq<string> { [s.name] }

  /** A project's texts: name and description; the url is a link. */
  function ProjectTexts(p: Project): seq<string> { [p.name, p.description] }

  function NoTexts<T>(x: T): seq<string> { [] }

  lemma {:induction false} NoTextsFlat<T>(s: seq<T>)
    ensures FlatMap(s, NoTexts) == []
  {
    if s != [] {
      NoTextsFlat(s[1..]);
    }
  }

  /** The non-empty contact values: email, phone, location. */
  function ContactTexts(p: PersonalDetails): seq<string>
  {
    When(p.email != "", p.email) + When(p.phone != "", p.phone) + When(p.location != "", p.location)
  }

  /** The personal texts every layout shows, in order: name and title
      always, then each contact value and the summary when non-empty. */
  function ShownValues(p: PersonalDetails): seq<string>
  {
    [p.name] + [p.title] + ContactTexts(p) + When(p.summary != "", p.summary)
  }

  /** The texts of the record's entries of part `k`, section order kept. */
  function EntryTexts(d: ResumeData, k: Kind): seq<string>
  {
    match k
    case EducationKind => FlatMap(d.education, EducationTexts)
    case ExperienceKind => FlatMap(d.experience, ExperienceTexts)
    case SkillKind => FlatMap(d.skills, SkillName)
    case ProjectKind => FlatMap(d.projects, ProjectTexts)
    case PersonalKind => []
    case BadgeKind => []
  }

  /** Four sections, each showing its own part of the record and nothing
      else, together show the record's entry texts of every part. */
  lemma EntryTextsOfSections(d: ResumeData, k: Kind, x: seq<string>, e: seq<string>, s: seq<string>, q: seq<string>)
    requires x == if k == ExperienceKind then FlatMap(d.experience, ExperienceTexts) else []
    requires e == if k == EducationKind then FlatMap(d.education, EducationTexts) else []
    requires s == if k == SkillKind then FlatMap(d.skills, SkillName) else []
    requires q == if k == ProjectKind then FlatMap(d.projects, ProjectTexts) else []
    ensures x + e + s + q == EntryTexts(d, k)
  {
  }

  /** What part `k` of a record contributes outside the badge, in the order
      every layout shows it. */
  function RecordTexts(d: ResumeData, k: Kind): seq<string>
  {
    (if k == PersonalKind then ShownValues(d.personalDetails) else []) + EntryTexts(d, k)
  }

  // ---------------------------------------------------------------------
  // Entries and sections
  // ---------------------------------------------------------------------

  /** The texts of a list are the texts of its elements, in order. */
  lemma {:induction false} FlatMapItems<T>(s: seq<T>, f: T -> seq<Block>, g: T -> seq<string>, k: Kind)
    requires forall x :: Items(f(x), k) == g(x)
    ensures Items(FlatMap(s, f), k) == FlatMap(s, g)
  {
    if s != [] {
      FlatMapItems(s[1..], f, g, k);
      ItemsAppend(f(s[0]), FlatMap(s[1..], f), k);
    }
  }

  /** A list section shows exactly the texts of its elements. */
  lemma ListSectionItems<T>(title: string, s: seq<T>, f: T -> seq<Block>, g: T -> seq<string>, k: Kind)
    requires forall i :: 0 <= i < |s| ==> IsEntryContent(f(s[i]))
    requires forall x :: Items(f(x), k) == g(x)
    ensures Items(ListSection(title, s, f), k) == FlatMap(s, g)
  {
    FlatMapItems(s, f, g, k);
    ItemsAppend([Heading(title)], FlatMap(s, f), k);
    ItemsSingle(Heading(title), k);
  }

  lemma ExperienceEntryItems(e: Experience, k: Kind)
    ensures Items(ExperienceEntry(e), k) == if k == ExperienceKind then ExperienceTexts(e) else []
  {
    var r := ExperienceEntry(e);
    ItemsFour(r[0], r[1], r[2], r[3], k);
    assert r == [r[0], r[1], r[2], r[3]];
  }

  lemma EducationEntryItems(e: Education, k: Kind)
    ensures Items(EducationEntry(e), k) == if k == EducationKind then EducationTexts(e) else []
  {
    var r := EducationEntry(e);
    ItemsFour(r[0], r[1], r[2], r[3], k);
    assert r == [r[0], r[1], r[2], r[3]];
  }

  lemma ProjectEntryItems(p: Project, caption: string, k: Kind)
    ensures Items(ProjectEntry(p, caption), k) == if k == ProjectKind then ProjectTexts(p) else []
  {
    var a, b := Text(OfProject(ProjectName), p.name), Text(OfProject(ProjectDescription), p.description);
    var l := When(p.url != "", Link(p.url, caption));
    ItemsAppend([a] + [b], l, k);
    ItemsAppend([a], [b], k);
    ItemsSingle(a, k);
    ItemsSingle(b, k);
    if p.url != "" {
      ItemsSingle(Link(p.url, caption), k);
    }
  }

  /** The experience section shows the texts of every entry, in order, and
      nothing of any other part. */
  lemma ExperienceSectionItems(title: string, s: seq<Experience>, k: Kind)
    ensures Items(ExperienceSection(title, s), k) == if k == ExperienceKind then FlatMap(s, ExperienceTexts) else []
  {
    if k == ExperienceKind {
      forall x ensures Items(ExperienceEntry(x), k) == ExperienceTexts(x) { ExperienceEntryItems(x, k); }
      ListSectionItems(title, s, ExperienceEntry, ExperienceTexts, k);
    } else {
      forall x ensures Items(ExperienceEntry(x), k) == NoTexts(x) { ExperienceEntryItems(x, k); }
      ListSectionItems(title, s, ExperienceEntry, NoTexts, k);
      NoTextsFlat(s);
    }
  }

  /** The education section shows the texts of every entry, in order, and
      nothing of any other part. */
  lemma EducationSectionItems(title: string, s: seq<Education>, k: Kind)
    ensures Items(EducationSection(title, s), k) == if k == EducationKind then FlatMap(s, EducationTexts) else []
  {
    if k == EducationKind {
      forall x ensures Items(EducationEntry(x), k) == EducationTexts(x) { EducationEntryItems(x, k); }
      ListSectionItems(title, s, EducationEntry, EducationTexts, k);
    } else {
      forall x ensures Items(EducationEntry(x), k) == NoTexts(x) { EducationEntryItems(x, k); }
      ListSectionItems(title, s, EducationEntry, NoTexts, k);
      NoTextsFlat(s);
    }
  }

  /** The skills section shows one chip per skill, its name, in order. */
  lemma SkillsSectionItems(title: string, s: seq<Skill>, k: Kind)
    ensures Items(SkillsSection(title, s), k) == if k == SkillKind then FlatMap(s, SkillName) else []
  {
    if k == SkillKind {
      forall x ensures Items(SkillEntry(x), k) == SkillName(x) { ItemsSingle(Text(OfSkill, x.name), k); }
      ListSectionItems(title, s, SkillEntry, SkillName, k);
    } else {
      forall x ensures Items(SkillEntry(x), k) == NoTexts(x) { ItemsSingle(Text(OfSkill, x.name), k); }
      ListSectionItems(title, s, SkillEntry, NoTexts, k);
      NoTextsFlat(s);
    }
  }

  /** The projects section of the professional and creative layouts shows
      every project's name and description, in order. */
  lemma ViewProjectsSectionItems(title: string, s: seq<Project>, k: Kind)
    ensures Items(ViewProjectsSection(title, s), k) == if k == ProjectKind then FlatMap(s, ProjectTexts) else []
  {
    if k == ProjectKind {
      forall x ensures Items(ViewProjectEntry(x), k) == ProjectTexts(x) { ProjectEntryItems(x, "View Project", k); }
      ListSectionItems(title, s, ViewProjectEntry, ProjectTexts, k);
    } else {
      forall x ensures Items(ViewProjectEntry(x), k) == NoTexts(x) { ProjectEntryItems(x, "View Project", k); }
      ListSectionItems(title, s, ViewProjectEntry, NoTexts, k);
      NoTextsFlat(s);
    }
  }

  /** The same for the projects section of the minimalist layout. */
  lemma UrlProjectsSectionItems(title: string, s: seq<Project>, k: Kind)
    ensures Items(UrlProjectsSection(title, s), k) == if k == ProjectKind then FlatMap(s, ProjectTexts) else []
  {
    if k == ProjectKind {
      forall x ensures Items(UrlProjectEntry(x), k) == ProjectTexts(x) { ProjectEntryItems(x, x.url, k); }
      ListSectionItems(title, s, UrlProjectEntry, ProjectTexts, k);
    } else {
      forall x ensures Items(UrlProjectEntry(x), k) == NoTexts(x) { ProjectEntryItems(x, x.url, k); }
      ListSectionItems(title, s, UrlProjectEntry, NoTexts, k);
      NoTextsFlat(s);
    }
  }

  // ---------------------------------------------------------------------
  // The header and the summary
  // ---------------------------------------------------------------------

  /** One personal field shows its value, only when non-empty. */
  lemma ContactItemItems(p: PersonalDetails, f: PersonalField, k: Kind)
    ensures Items(ContactItem(p, f), k) ==
      if k == PersonalKind then When(PersonalValue(p, f) != "", PersonalValue(p, f)) else []
  {
    ItemsSingle(Text(Personal(f), PersonalValue(p, f)), k);
  }

  /** The contact line shows the non-empty contact values, in order. */
  lemma ContactBlocksItems(p: PersonalDetails, k: Kind)
    ensures Items(ContactBlocks(p), k) == if k == PersonalKind then ContactTexts(p) else []
  {
    var e, ph, l := ContactItem(p, Email), ContactItem(p, Phone), ContactItem(p, Location);
    assert PersonalValue(p, Email) == p.email && PersonalValue(p, Phone) == p.phone && PersonalValue(p, Location) == p.location;
    ItemsAppend(e + ph, l, k);
    ItemsAppend(e, ph, k);
    ContactItemItems(p, Email, k);
    ContactItemItems(p, Phone, k);
    ContactItemItems(p, Location, k);
  }

  /** The header shows the name, the title and the contact values. */
  lemma HeaderItems(p: PersonalDetails, k: Kind)
    ensures Items(HeaderBlocks(p), k) == if k == PersonalKind then [p.name] + [p.title] + ContactTexts(p) else []
  {
    ItemsTwoThen(Text(Personal(Name), p.name), Text(Personal(Title), p.title), ContactBlocks(p), k);
    ContactBlocksItems(p, k);
  }

  lemma ItemsTwoThen(a: Block, b: Block, c: seq<Block>, k: Kind)
    ensures Items([a] + [b] + c, k) == ItemOf(a, k) + ItemOf(b, k) + Items(c, k)
  {
    ItemsAppend([a] + [b], c, k);
    ItemsAppend([a], [b], k);
    ItemsSingle(a, k);
    ItemsSingle(b, k);
  }

  /** A summary section shows the summary text, only when non-empty. */
  lemma SummarySectionItems(title: string, p: PersonalDetails, k: Kind)
    ensures Items(SummarySection(title, p), k) == if k == PersonalKind then When(p.summary != "", p.summary) else []
  {
    if p.summary != "" {
      var h, t := Heading(title), Text(Personal(Summary), p.summary);
      ItemsAppend([h], [t], k);
      ItemsSingle(h, k);
      ItemsSingle(t, k);
    }
  }

  // ---------------------------------------------------------------------
  // Every text, whatever part it comes from
  // ---------------------------------------------------------------------

  /** The texts `bs` shows, of every part of the record, in document
      order: the order a reader meets them across parts. */
  function Texts(bs: seq<Block>): seq<string>
  {
    if bs == [] then [] else (if bs[0].Text? then [bs[0].text] else []) + Texts(bs[1..])
  }

  lemma {:induction false} TextsAppend(a: seq<Block>, b: seq<Block>)
    ensures Texts(a + b) == Texts(a) + Texts(b)
  {
    if a == [] {
      assert a + b == b;
    } else {
      assert (a + b)[0] == a[0] && (a + b)[1..] == a[1..] + b;
      TextsAppend(a[1..], b);
      var h := if a[0].Text? then [a[0].text] else [];
      calc {
        Texts(a + b);
        h + Texts(a[1..] + b);
        h + (Texts(a[1..]) + Texts(b));
        (h + Texts(a[1..])) + Texts(b);
      }
    }
  }

  /** A part of a document that shows texts of part `k` of the record only
      shows them in the order `Items` lists them. */
  lemma {:induction false} TextsOfOnePart(bs: seq<Block>, k: Kind)
    requires forall j :: j != k ==> Items(bs, j) == []
    ensures Texts(bs) == Items(bs, k)
  {
    if bs != [] {
      forall j | j != k
        ensures Items(bs[1..], j) == []
      {
        assert Items(bs, j) == ItemOf(bs[0], j) + Items(bs[1..], j);
      }
      TextsOfOnePart(bs[1..], k);
      if bs[0].Text? {
        var j := KindOf(bs[0].source);
        assert Items(bs, j) == ItemOf(bs[0], j) + Items(bs[1..], j);
      }
    }
  }

  /** The same, for a part whose texts of part `k` are known to be `v`. */
  lemma OnePartTexts(bs: seq<Block>, k: Kind, v: seq<string>)
    requires forall j :: Items(bs, j) == if j == k then v else []
    ensures Texts(bs) == v
  {
    TextsOfOnePart(bs, k);
  }

  lemma ExperienceSectionTexts(title: string, s: seq<Experience>)
    ensures Texts(ExperienceSection(title, s)) == FlatMap(s, ExperienceTexts)
  {
    forall j ensures Items(ExperienceSection(title, s), j) == if j == ExperienceKind then FlatMap(s, ExperienceTexts) else [] {
      ExperienceSectionItems(title, s, j);
    }
    TextsOfOnePart(ExperienceSection(title, s), ExperienceKind);
  }

  lemma EducationSectionTexts(title: string, s: seq<Education>)
    ensures Texts(EducationSection(title, s)) == FlatMap(s, EducationTexts)
  {
    forall j ensures Items(EducationSection(title, s), j) == if j == EducationKind then FlatMap(s, EducationTexts) else [] {
      EducationSectionItems(title, s, j);
    }
    TextsOfOnePart(EducationSection(title, s), EducationKind);
  }

  lemma SkillsSectionTexts(title: string, s: seq<Skill>)
    ensures Texts(SkillsSection(title, s)) == FlatMap(s, SkillName)
  {
    forall j ensures Items(SkillsSection(title, s), j) == if j == SkillKind then FlatMap(s, SkillName) else [] {
      SkillsSectionItems(title, s, j);
    }
    TextsOfOnePart(SkillsSection(title, s), SkillKind);
  }

  lemma ViewProjectsSectionTexts(title: string, s: seq<Project>)
    ensures Texts(ViewProjectsSection(title, s)) == FlatMap(s, ProjectTexts)
  {
    forall j ensures Items(ViewProjectsSection(title, s), j) == if j == ProjectKind then FlatMap(s, ProjectTexts) else [] {
      ViewProjectsSectionItems(title, s, j);
    }
    TextsOfOnePart(ViewProjectsSection(title, s), ProjectKind);
  }

  lemma UrlProjectsSectionTexts(title: string, s: seq<Project>)
    ensures Texts(UrlProjectsSection(title, s)) == FlatMap(s, ProjectTexts)
  {
    forall j ensures Items(UrlProjectsSection(title, s), j) == if j == ProjectKind then FlatMap(s, ProjectTexts) else [] {
      UrlProjectsSectionItems(title, s, j);
    }
    TextsOfOnePart(UrlProjectsSection(title, s), ProjectKind);
  }

  lemma ContactBlocksTexts(p: PersonalDetails)
    ensures Texts(ContactBlocks(p)) == ContactTexts(p)
  {
    forall j ensures Items(ContactBlocks(p), j) == if j == PersonalKind then ContactTexts(p) else [] {
      ContactBlocksItems(p, j);
    }
    TextsOfOnePart(ContactBlocks(p), PersonalKind);
  }

  lemma TextsSingle(b: Block)
    ensures Texts([b]) == if b.Text? then [b.text] else []
  {
    assert [b][1..] == [];
  }

  /** One personal field shows its value, only when non-empty. */
  lemma ContactItemTexts(p: PersonalDetails, f: PersonalField)
    ensures Texts(ContactItem(p, f)) == When(PersonalValue(p, f) != "", PersonalValue(p, f))
  {
    TextsSingle(Text(Personal(f), PersonalValue(p, f)));
  }

  /** The header shows the name, the title and the contact values. */
  lemma HeaderTexts(p: PersonalDetails)
    ensures Texts(HeaderBlocks(p)) == [p.name] + [p.title] + ContactTexts(p)
  {
    var n, t := Text(Personal(Name), p.name), Text(Personal(Title), p.title);
    TextsAppend([n] + [t], ContactBlocks(p));
    TextsAppend([n], [t]);
    TextsSingle(n);
    TextsSingle(t);
    ContactBlocksTexts(p);
  }

  /** A summary section shows the summary text, only when non-empty. */
  lemma SummarySectionTexts(title: string, p: PersonalDetails)
    ensures Texts(SummarySection(title, p)) == When(p.summary != "", p.summary)
  {
    if p.summary != "" {
      var h, t := Heading(title), Text(Personal(Summary), p.summary);
      TextsAppend([h], [t]);
      TextsSingle(h);
      TextsSingle(t);
    }
  }

  /** The four sections every layout lists, one after another, show the
      experience, education, skill and project texts in that order. */
  lemma FourSectionsTexts(x: seq<Block>, e: seq<Block>, s: seq<Block>, q: seq<Block>, d: ResumeData)
    requires Texts(x) == FlatMap(d.experience, ExperienceTexts) && Texts(e) == FlatMap(d.education, EducationTexts)
    requires Texts(s) == FlatMap(d.skills, SkillName) && Texts(q) == FlatMap(d.projects, ProjectTexts)
    ensures Texts(x + e + s + q) == FlatMap(d.experience, ExperienceTexts) + FlatMap(d.education, EducationTexts)
                                    + FlatMap(d.skills, SkillName) + FlatMap(d.projects, ProjectTexts)
  {
    TextsAppend(x + e + s, q);
    TextsAppend(x + e, s);
    TextsAppend(x, e);
  }

  /** The record's texts in the order the minimalist and professional
      layouts show them: the personal values, then every experience,
      education, skill and project entry's texts. */
  function RecordOrder(d: ResumeData): seq<string>
  {
    ShownValues(d.personalDetails)
    + (FlatMap(d.experience, ExperienceTexts) + FlatMap(d.education, EducationTexts)
       + FlatMap(d.skills, SkillName) + FlatMap(d.projects, ProjectTexts))
  }
}
