/** The abstract view the three resume layouts produce: a flat sequence of
    blocks in document order. Styling, icons and columns are dropped; what
    remains is which headings, which record fields and which links are
    shown, and where. */
module Blocks {
  import opened ResumeTypes

  /** The record field a text block displays. */
  datatype Source =
    | Personal(field: PersonalField)
    | NameInitials
    | OfEducation(educationField: EducationField)
    | OfExperience(experienceField: ExperienceField)
    | OfSkill
    | OfProject(projectField: ProjectField)

  datatype Block =
    | Heading(title: string)
    | Text(source: Source, text: string)
    | Link(href: string, caption: string)

  /** `[x]` when `c` holds, otherwise nothing: the `c && <x/>` of the layouts. */
  function When<T>(c: bool, x: T): seq<T>
  {
    if c then [x] else []
  }

  /** `s.map(f)` with the results laid out one after another. */
  function FlatMap<T, U>(s: seq<T>, f: T -> seq<U>): seq<U>
  {
    if s == [] then [] else f(s[0]) + FlatMap(s[1..], f)
  }

  lemma {:induction false} FlatMapAppend<T, U>(a: seq<T>, b: seq<T>, f: T -> seq<U>)
    ensures FlatMap(a + b, f) == FlatMap(a, f) + FlatMap(b, f)
  {
    if a == [] {
      assert a + b == b;
    } else {
      assert (a + b)[1..] == a[1..] + b;
      FlatMapAppend(a[1..], b, f);
    }
  }

  lemma FlatMapSingle<T, U>(x: T, f: T -> seq<U>)
    ensures FlatMap([x], f) == f(x)
  {
    assert [x][1..] == [];
  }

  /** A value is produced by a list exactly when some element produces it. */
  lemma {:induction false} FlatMapMember<T, U>(s: seq<T>, f: T -> seq<U>, y: U)
    ensures y in FlatMap(s, f) <==> exists i :: 0 <= i < |s| && y in f(s[i])
  {
    if s != [] {
      FlatMapMember(s[1..], f, y);
      if y in FlatMap(s[1..], f) {
        var i :| 0 <= i < |s[1..]| && y in f(s[1..][i]);
        assert s[1..][i] == s[i + 1];
      }
      if exists i :: 0 <= i < |s| && y in f(s[i]) {
        var i :| 0 <= i < |s| && y in f(s[i]);
        if i > 0 {
          assert s[1..][i - 1] == s[i];
        }
      }
    }
  }

  // ---------------------------------------------------------------------
  // What a document shows: four projections of the block sequence
  // ---------------------------------------------------------------------

  function HeadingOf(b: Block): seq<string> { if b.Heading? then [b.title] else [] }

  function SourceOf(b: Block): seq<Source> { if b.Text? then [b.source] else [] }

  function PersonalOf(b: Block): seq<PersonalField>
  {
    if b.Text? && b.source.Personal? then [b.source.field] else []
  }

  function LinkOf(b: Block): seq<Block> { if b.Link? then [b] else [] }

  /** The titles of the headings of `bs`, in document order. */
  function Headings(bs: seq<Block>): seq<string> { FlatMap(bs, HeadingOf) }

  /** The fields shown by the text blocks of `bs`, in document order. */
  function Sources(bs: seq<Block>): seq<Source> { FlatMap(bs, SourceOf) }

  /** The personal fields shown by `bs`, in document order. */
  function Personals(bs: seq<Block>): seq<PersonalField> { FlatMap(bs, PersonalOf) }

  /** The links of `bs`, in document order. */
  function Links(bs: seq<Block>): seq<Block> { FlatMap(bs, LinkOf) }

  /** Each projection of a concatenation is the concatenation of the
      projections. */
  lemma ProjectionsAppend(a: seq<Block>, b: seq<Block>)
    ensures Headings(a + b) == Headings(a) + Headings(b)
    ensures Sources(a + b) == Sources(a) + Sources(b)
    ensures Personals(a + b) == Personals(a) + Personals(b)
    ensures Links(a + b) == Links(a) + Links(b)
  {
    FlatMapAppend(a, b, HeadingOf);
    FlatMapAppend(a, b, SourceOf);
    FlatMapAppend(a, b, PersonalOf);
    FlatMapAppend(a, b, LinkOf);
  }

  /** The projections of a document made of four parts. */
  lemma ProjectionsAppend4(a: seq<Block>, b: seq<Block>, c: seq<Block>, d: seq<Block>)
    ensures Headings(a + b + c + d) == Headings(a) + Headings(b) + Headings(c) + Headings(d)
    ensures Personals(a + b + c + d) == Personals(a) + Personals(b) + Personals(c) + Personals(d)
    ensures Links(a + b + c + d) == Links(a) + Links(b) + Links(c) + Links(d)
  {
    ProjectionsAppend(a, b);
    ProjectionsAppend(a + b, c);
    ProjectionsAppend(a + b + c, d);
  }

  /** Empty parts of a four-part concatenation drop out. */
  lemma Drop4<T>(a: seq<T>, b: seq<T>, c: seq<T>, d: seq<T>)
    ensures a == [] && b == [] && c == [] ==> a + b + c + d == d
  {
  }

  /** Empty parts of a three-part concatenation drop out. */
  lemma Drop3<T>(a: seq<T>, b: seq<T>, c: seq<T>)
    ensures b == [] && c == [] ==> a + b + c == a
    ensures a == [] && b == [] ==> a + b + c == c
  {
  }

  lemma SingleProjections(b: Block)
    ensures Headings([b]) == HeadingOf(b) && Sources([b]) == SourceOf(b)
    ensures Personals([b]) == PersonalOf(b) && Links([b]) == LinkOf(b)
  {
    FlatMapSingle(b, HeadingOf);
    FlatMapSingle(b, SourceOf);
    FlatMapSingle(b, PersonalOf);
    FlatMapSingle(b, LinkOf);
  }

  /** A link is in the document exactly when it is among its links. */
  lemma LinksMember(bs: seq<Block>, b: Block)
    requires b.Link?
    ensures b in Links(bs) <==> b in bs
  {
    FlatMapMember(bs, LinkOf, b);
    if b in bs {
      var i :| 0 <= i < |bs| && bs[i] == b;
      assert b in LinkOf(bs[i]);
    }
  }

  /** Plain text blocks that show no personal field: no heading, no
      personal field, no link. */
  lemma {:induction false} PlainTexts(bs: seq<Block>)
    requires forall i :: 0 <= i < |bs| ==> bs[i].Text? && !bs[i].source.Personal?
    ensures Headings(bs) == [] && Personals(bs) == [] && Links(bs) == []
  {
    if bs != [] {
      assert bs == [bs[0]] + bs[1..];
      ProjectionsAppend([bs[0]], bs[1..]);
      SingleProjections(bs[0]);
      PlainTexts(bs[1..]);
    }
  }

  /** The fields shown by four text blocks. */
  lemma FourSources(a: Block, b: Block, c: Block, d: Block)
    requires a.Text? && b.Text? && c.Text? && d.Text?
    ensures Sources([a, b, c, d]) == [a.source, b.source, c.source, d.source]
  {
    assert [a, b, c, d] == [a] + [b] + [c] + [d];
    ProjectionsAppend([a], [b]);
    ProjectionsAppend([a] + [b], [c]);
    ProjectionsAppend([a] + [b] + [c], [d]);
    SingleProjections(a);
    SingleProjections(b);
    SingleProjections(c);
    SingleProjections(d);
  }

  // ---------------------------------------------------------------------
  // Sections
  // ---------------------------------------------------------------------

  /** The body of an entry: no heading and no personal field. */
  predicate IsEntryContent(bs: seq<Block>)
  {
    Headings(bs) == [] && Personals(bs) == []
  }

  lemma {:induction false} FlatMapEntryContent<T>(s: seq<T>, f: T -> seq<Block>)
    requires forall i :: 0 <= i < |s| ==> IsEntryContent(f(s[i]))
    ensures IsEntryContent(FlatMap(s, f))
  {
    if s != [] {
      assert forall i :: 0 <= i < |s[1..]| ==> s[1..][i] == s[i + 1];
      FlatMapEntryContent(s[1..], f);
      ProjectionsAppend(f(s[0]), FlatMap(s[1..], f));
    }
  }

  /** The links of a list are the links of its elements, in order. */
  lemma {:induction false} FlatMapLinks<T>(s: seq<T>, f: T -> seq<Block>, g: T -> seq<Block>)
    requires forall x :: Links(f(x)) == g(x)
    ensures Links(FlatMap(s, f)) == FlatMap(s, g)
  {
    if s != [] {
      FlatMapLinks(s[1..], f, g);
      ProjectionsAppend(f(s[0]), FlatMap(s[1..], f));
    }
  }

  /** A section listing `s` with each element rendered by `f`, shown only
      when `s` is non-empty: `s.length > 0 && <section><h2>title</h2>...`. */
  function ListSection<T>(title: string, s: seq<T>, f: T -> seq<Block>): (r: seq<Block>)
    requires forall i :: 0 <= i < |s| ==> IsEntryContent(f(s[i]))
    ensures Headings(r) == When(|s| > 0, title) && Personals(r) == []
    ensures Links(r) == Links(FlatMap(s, f))
    ensures |s| > 0 ==> |r| > 0 && r[0] == Heading(title)
    ensures |s| == 0 ==> r == []
  {
    FlatMapEntryContent(s, f);
    SingleProjections(Heading(title));
    ProjectionsAppend([Heading(title)], FlatMap(s, f));
    if |s| > 0 then [Heading(title)] + FlatMap(s, f) else []
  }

  // ---------------------------------------------------------------------
  // Entries, rendered alike by all three layouts
  // ---------------------------------------------------------------------

  /** An experience entry shows position, date, company and description, in
      that order. */
  function ExperienceEntry(e: Experience): (r: seq<Block>)
    ensures |r| == 4 && IsEntryContent(r) && Links(r) == []
    ensures Sources(r) == [OfExperience(Position), OfExperience(ExperienceDate),
                           OfExperience(Company), OfExperience(ExperienceDescription)]
  {
    var a, b := Text(OfExperience(Position), e.position), Text(OfExperience(ExperienceDate), e.date);
    var c, d := Text(OfExperience(Company), e.company), Text(OfExperience(ExperienceDescription), e.description);
    PlainTexts([a, b, c, d]);
    FourSources(a, b, c, d);
    [a, b, c, d]
  }

  /** Every block of an experience entry shows the entry's own value of the
      field it displays. */
  lemma ExperienceEntryValues(e: Experience)
    ensures forall b :: b in ExperienceEntry(e) ==>
      b.Text? && b.source.OfExperience? && b.text == ExperienceValue(e, b.source.experienceField)
  {
  }

  /** An education entry shows degree, date, institution and description, in
      that order. */
  function EducationEntry(e: Education): (r: seq<Block>)
    ensures |r| == 4 && IsEntryContent(r) && Links(r) == []
    ensures Sources(r) == [OfEducation(Degree), OfEducation(EducationDate),
                           OfEducation(Institution), OfEducation(EducationDescription)]
  {
    var a, b := Text(OfEducation(Degree), e.degree), Text(OfEducation(EducationDate), e.date);
    var c, d := Text(OfEducation(Institution), e.institution), Text(OfEducation(EducationDescription), e.description);
    PlainTexts([a, b, c, d]);
    FourSources(a, b, c, d);
    [a, b, c, d]
  }

  /** Every block of an education entry shows the entry's own value of the
      field it displays. */
  lemma EducationEntryValues(e: Education)
    ensures forall b :: b in EducationEntry(e) ==>
      b.Text? && b.source.OfEducation? && b.text == EducationValue(e, b.source.educationField)
  {
  }

  /** A skill shows its name and nothing else. */
  function SkillEntry(s: Skill): (r: seq<Block>)
    ensures IsEntryContent(r) && Links(r) == []
    ensures Sources(r) == [OfSkill]
  {
    SingleProjections(Text(OfSkill, s.name));
    [Text(OfSkill, s.name)]
  }

  /** A project shows its name and description, then a link to its url
      exactly when the url is non-empty. */
  function ProjectEntry(p: Project, caption: string): (r: seq<Block>)
    ensures |r| >= 2
    ensures r[0] == Text(OfProject(ProjectName), p.name) && r[1] == Text(OfProject(ProjectDescription), p.description)
    ensures r[2..] == Links(r)
    ensures IsEntryContent(r)
    ensures Sources(r) == [OfProject(ProjectName), OfProject(ProjectDescription)]
    ensures Links(r) == When(p.url != "", Link(p.url, caption))
  {
    var a, b := Text(OfProject(ProjectName), p.name), Text(OfProject(ProjectDescription), p.description);
    var l := Link(p.url, caption);
    SingleProjections(a);
    SingleProjections(b);
    SingleProjections(l);
    ProjectionsAppend([a], [b]);
    ProjectionsAppend([a] + [b], When(p.url != "", l));
    [a] + [b] + When(p.url != "", l)
  }

  /** The text blocks of a project entry show the project's own values. */
  lemma ProjectEntryValues(p: Project, caption: string)
    ensures forall b :: b in ProjectEntry(p, caption) && b.Text? ==>
      b.source.OfProject? && b.text == ProjectValue(p, b.source.projectField)
  {
    var r := ProjectEntry(p, caption);
    assert forall b :: b in r ==> b in r[..2] || b in r[2..];
  }

  /** The project link of the professional and creative layouts reads
      "View Project"; the one of the minimalist layout shows the url. */
  function ViewLink(p: Project): seq<Block> { When(p.url != "", Link(p.url, "View Project")) }

  function UrlLink(p: Project): seq<Block> { When(p.url != "", Link(p.url, p.url)) }

  function ViewProjectEntry(p: Project): (r: seq<Block>)
    ensures IsEntryContent(r) && Links(r) == ViewLink(p)
  {
    ProjectEntry(p, "View Project")
  }

  function UrlProjectEntry(p: Project): (r: seq<Block>)
    ensures IsEntryContent(r) && Links(r) == UrlLink(p)
  {
    ProjectEntry(p, p.url)
  }

  /** In a document `pre + section`, where the section lists `s` and every
      element renders four blocks, element `i` occupies the four positions
      after the heading and the `i` elements before it. */
  lemma EntryAt<T>(pre: seq<Block>, title: string, s: seq<T>, f: T -> seq<Block>, i: nat)
    requires forall x :: |f(x)| == 4 && IsEntryContent(f(x))
    requires i < |s|
    ensures var r := pre + ListSection(title, s, f); var o := |pre| + 1 + 4 * i;
      |r| >= o + 4 && r[o .. o + 4] == f(s[i])
  {
    var fm := FlatMap(s, f);
    FlatMapFour(s, f, i);
    FlatMapSlice(s, f, i);
    SliceRight(pre, [Heading(title)] + fm, 1 + 4 * i, 5 + 4 * i);
    SliceRight([Heading(title)], fm, 4 * i, 4 * i + 4);
  }

  /** Appending in front shifts a slice of the back part. */
  lemma SliceRight<T>(a: seq<T>, b: seq<T>, lo: nat, hi: nat)
    requires lo <= hi <= |b|
    ensures (a + b)[|a| + lo .. |a| + hi] == b[lo .. hi]
  {
  }

  /** Element `i` is rendered right after elements `0 .. i-1`. */
  lemma FlatMapSlice<T>(s: seq<T>, f: T -> seq<Block>, i: nat)
    requires i < |s|
    ensures |FlatMap(s[..i], f)| + |f(s[i])| <= |FlatMap(s, f)|
    ensures var o := |FlatMap(s[..i], f)|; FlatMap(s, f)[o .. o + |f(s[i])|] == f(s[i])
  {
    assert s == s[..i] + ([s[i]] + s[i + 1..]);
    FlatMapAppend(s[..i], [s[i]] + s[i + 1..], f);
    assert ([s[i]] + s[i + 1..])[1..] == s[i + 1..];
  }

  /** When every element renders four blocks, elements `0 .. i-1` render
      `4*i` blocks. */
  lemma {:induction false} FlatMapFour<T>(s: seq<T>, f: T -> seq<Block>, i: nat)
    requires forall x :: |f(x)| == 4
    requires i <= |s|
    ensures |FlatMap(s[..i], f)| == 4 * i
  {
    if i > 0 {
      FlatMapFour(s, f, i - 1);
      assert s[..i] == s[..i - 1] + [s[i - 1]];
      FlatMapAppend(s[..i - 1], [s[i - 1]], f);
      FlatMapSingle(s[i - 1], f);
    }
  }

  lemma InAppend3<T>(a: seq<T>, b: seq<T>, c: seq<T>, x: T)
    ensures x in a + b + c <==> x in a || x in b || x in c
  {
  }

  /** Skills are rendered one block per skill, in section order. */
  lemma {:induction false} SkillChips(s: seq<Skill>)
    ensures |FlatMap(s, SkillEntry)| == |s|
    ensures forall i :: 0 <= i < |s| ==> FlatMap(s, SkillEntry)[i] == Text(OfSkill, s[i].name)
  {
    if s != [] {
      SkillChips(s[1..]);
      assert forall i :: 1 <= i < |s| ==> s[1..][i - 1] == s[i];
    }
  }

  function NoBlocks<T>(x: T): seq<Block> { [] }

  lemma {:induction false} NoBlocksFlat<T>(s: seq<T>)
    ensures FlatMap(s, NoBlocks) == []
  {
    if s != [] {
      NoBlocksFlat(s[1..]);
    }
  }

  // The four sections every layout lists, each shown only when it has
  // entries. Their links are those of their entries, in order.

  function ExperienceSection(title: string, s: seq<Experience>): (r: seq<Block>)
    ensures Headings(r) == When(|s| > 0, title) && Personals(r) == [] && Links(r) == []
    ensures |s| > 0 ==> |r| > 0 && r[0] == Heading(title)
  {
    FlatMapLinks(s, ExperienceEntry, NoBlocks);
    NoBlocksFlat(s);
    ListSection(title, s, ExperienceEntry)
  }

  function EducationSection(title: string, s: seq<Education>): (r: seq<Block>)
    ensures Headings(r) == When(|s| > 0, title) && Personals(r) == [] && Links(r) == []
    ensures |s| > 0 ==> |r| > 0 && r[0] == Heading(title)
  {
    FlatMapLinks(s, EducationEntry, NoBlocks);
    NoBlocksFlat(s);
    ListSection(title, s, EducationEntry)
  }

  function SkillsSection(title: string, s: seq<Skill>): (r: seq<Block>)
    ensures Headings(r) == When(|s| > 0, title) && Personals(r) == [] && Links(r) == []
    ensures |s| > 0 ==> |r| > 0 && r[0] == Heading(title)
  {
    FlatMapLinks(s, SkillEntry, NoBlocks);
    NoBlocksFlat(s);
    ListSection(title, s, SkillEntry)
  }

  /** The projects section of the professional and creative layouts. */
  function ViewProjectsSection(title: string, s: seq<Project>): (r: seq<Block>)
    ensures Headings(r) == When(|s| > 0, title) && Personals(r) == []
    ensures Links(r) == FlatMap(s, ViewLink)
    ensures |s| > 0 ==> |r| > 0 && r[0] == Heading(title)
  {
    FlatMapLinks(s, ViewProjectEntry, ViewLink);
    ListSection(title, s, ViewProjectEntry)
  }

  /** The projects section of the minimalist layout. */
  function UrlProjectsSection(title: string, s: seq<Project>): (r: seq<Block>)
    ensures Headings(r) == When(|s| > 0, title) && Personals(r) == []
    ensures Links(r) == FlatMap(s, UrlLink)
    ensures |s| > 0 ==> |r| > 0 && r[0] == Heading(title)
  {
    FlatMapLinks(s, UrlProjectEntry, UrlLink);
    ListSection(title, s, UrlProjectEntry)
  }

  /** Experience entry `i` follows the heading and the `i` entries before
      it, four blocks each. */
  lemma ExperienceAt(pre: seq<Block>, title: string, s: seq<Experience>, i: nat)
    requires i < |s|
    ensures var r := pre + ExperienceSection(title, s); var o := |pre| + 1 + 4 * i;
      |r| >= o + 4 && r[o .. o + 4] == ExperienceEntry(s[i])
  {
    EntryAt(pre, title, s, ExperienceEntry, i);
  }

  /** The first two elements of a concatenation whose first part has at
      least two. */
  lemma FirstTwo<T>(a: seq<T>, b: seq<T>)
    requires |a| >= 2
    ensures |a + b| >= 2 && (a + b)[0] == a[0] && (a + b)[1] == a[1]
  {
  }

  /** Experience entry `i` of a document made of `pre` and four parts, the
      first an experience section, follows `pre`, the heading and the `i`
      entries before it. */
  lemma ExperienceAfterParts(pre: seq<Block>, title: string, s: seq<Experience>, b: seq<Block>, c: seq<Block>, e: seq<Block>,
                             i: nat, o: int)
    requires i < |s| && o == |pre|
    ensures var k := o + 1 + 4 * i;
      |pre + (ExperienceSection(title, s) + b + c + e)| >= k + 4
      && (pre + (ExperienceSection(title, s) + b + c + e))[k .. k + 4] == ExperienceEntry(s[i])
  {
    var x := ExperienceSection(title, s);
    ExperienceAt(pre, title, s, i);
    Regroup4(pre, x, b, c, e);
    SliceLeft(pre + x, b + c + e, |pre| + 1 + 4 * i, |pre| + 1 + 4 * i + 4);
  }

  lemma Regroup4<T>(pre: seq<T>, x: seq<T>, b: seq<T>, c: seq<T>, e: seq<T>)
    ensures pre + (x + b + c + e) == (pre + x) + (b + c + e)
  {
  }

  /** A slice that ends inside the first of three parts. */
  lemma SliceFirst3<T>(a: seq<T>, c: seq<T>, e: seq<T>, lo: nat, hi: nat)
    requires lo <= hi <= |a|
    ensures |a + c + e| >= hi && (a + c + e)[lo .. hi] == a[lo .. hi]
  {
    assert a + c + e == a + (c + e);
  }

  /** Education entry `i` keeps its place when the education section
      follows a part `x` and two more parts follow it. */
  lemma EducationSecond(x: seq<Block>, title: string, s: seq<Education>, c: seq<Block>, e: seq<Block>, i: nat)
    requires i < |s|
    ensures |x + EducationSection(title, s) + c + e| >= |x| + 1 + 4 * i + 4
    ensures (x + EducationSection(title, s) + c + e)[|x| + 1 + 4 * i .. |x| + 1 + 4 * i + 4] == EducationEntry(s[i])
  {
    EducationAt(x, title, s, i);
    SliceFirst3(x + EducationSection(title, s), c, e, |x| + 1 + 4 * i, |x| + 1 + 4 * i + 4);
  }

  /** The same entry, after any prefix of blocks. */
  lemma EducationAfterParts(pre: seq<Block>, x: seq<Block>, title: string, s: seq<Education>, c: seq<Block>, e: seq<Block>,
                            i: nat, o: int)
    requires i < |s| && o == |pre| + |x|
    ensures var k := o + 1 + 4 * i;
      |pre + (x + EducationSection(title, s) + c + e)| >= k + 4
      && (pre + (x + EducationSection(title, s) + c + e))[k .. k + 4] == EducationEntry(s[i])
  {
    EducationSecond(x, title, s, c, e, i);
    SliceShift(pre, x + EducationSection(title, s) + c + e, |x| + 1 + 4 * i, 4, EducationEntry(s[i]));
  }

  /** Putting `a` in front shifts a slice of `b` by `|a|`. */
  lemma SliceShift<T>(a: seq<T>, b: seq<T>, k: nat, n: nat, x: seq<T>)
    requires k + n <= |b| && b[k .. k + n] == x
    ensures |a + b| >= |a| + k + n && (a + b)[|a| + k .. |a| + k + n] == x
  {
    assert (a + b)[|a| + k .. |a| + k + n] == b[k .. k + n];
  }

  /** Education entry `i` follows the heading and the `i` entries before
      it, four blocks each. */
  lemma EducationAt(pre: seq<Block>, title: string, s: seq<Education>, i: nat)
    requires i < |s|
    ensures var r := pre + EducationSection(title, s); var o := |pre| + 1 + 4 * i;
      |r| >= o + 4 && r[o .. o + 4] == EducationEntry(s[i])
  {
    EntryAt(pre, title, s, EducationEntry, i);
  }

  /** In a document made of `pre`, a list section and `post`, the section's
      heading stands right after `pre`, and element `i` follows the heading
      and the blocks of the `i` elements before it. */
  lemma ListEntryAfter<T>(r: seq<Block>, pre: seq<Block>, title: string, s: seq<T>, f: T -> seq<Block>,
                          post: seq<Block>, i: nat, x: seq<Block>)
    requires forall j :: 0 <= j < |s| ==> IsEntryContent(f(s[j]))
    requires i < |s| && r == pre + ListSection(title, s, f) + post && x == f(s[i])
    ensures |pre| + 1 + |FlatMap(s[..i], f)| + |x| <= |r|
    ensures r[|pre|] == Heading(title)
    ensures r[|pre| + 1 + |FlatMap(s[..i], f)| .. |pre| + 1 + |FlatMap(s[..i], f)| + |x|] == x
  {
    ListSectionShape(title, s, f);
    EntryAfterHead(r, pre, Heading(title), s, f, post, i, x);
  }

  /** In `pre + ([h] + FlatMap(s, f)) + post`, element `i` follows `h` and
      the blocks of the `i` elements before it. */
  lemma EntryAfterHead<T>(r: seq<Block>, pre: seq<Block>, h: Block, s: seq<T>, f: T -> seq<Block>,
                          post: seq<Block>, i: nat, x: seq<Block>)
    requires i < |s| && r == pre + ([h] + FlatMap(s, f)) + post && x == f(s[i])
    ensures |pre| + 1 + |FlatMap(s[..i], f)| + |x| <= |r| && r[|pre|] == h
    ensures r[|pre| + 1 + |FlatMap(s[..i], f)| .. |pre| + 1 + |FlatMap(s[..i], f)| + |x|] == x
  {
    FlatMapSlice(s, f, i);
    SliceAfterHead(r, pre, h, FlatMap(s, f), post, |FlatMap(s[..i], f)|, x);
  }

  /** A list section of at least one element is its heading followed by
      the elements' blocks. */
  lemma ListSectionShape<T>(title: string, s: seq<T>, f: T -> seq<Block>)
    requires forall j :: 0 <= j < |s| ==> IsEntryContent(f(s[j]))
    requires |s| > 0
    ensures ListSection(title, s, f) == [Heading(title)] + FlatMap(s, f)
  {
  }

  /** In `pre + ([h] + m) + post`, `h` stands right after `pre` and a slice
      of `m` is shifted by `|pre| + 1`. */
  lemma SliceAfterHead<T>(r: seq<T>, pre: seq<T>, h: T, m: seq<T>, post: seq<T>, o: nat, x: seq<T>)
    requires r == pre + ([h] + m) + post
    requires o + |x| <= |m| && m[o .. o + |x|] == x
    ensures |pre| + 1 + o + |x| <= |r| && r[|pre|] == h
    ensures r[|pre| + 1 + o .. |pre| + 1 + o + |x|] == x
  {
    SliceRight([h], m, o, o + |x|);
    SliceRight(pre, [h] + m, 1 + o, 1 + o + |x|);
    SliceLeft(pre + ([h] + m), post, |pre| + 1 + o, |pre| + 1 + o + |x|);
  }

  lemma TrailingEmpty<T>(a: seq<T>)
    ensures a == a + []
  {
  }

  /** Appending behind leaves a slice of the front part alone. */
  lemma SliceLeft<T>(a: seq<T>, b: seq<T>, lo: nat, hi: nat)
    requires lo <= hi <= |a|
    ensures (a + b)[lo .. hi] == a[lo .. hi]
  {
  }

  /** In a document made of `pre`, a skills section and `post`, the Skills
      heading stands right after `pre` and skill `i`'s chip `i + 1` blocks
      after it. */
  lemma SkillAfter(r: seq<Block>, pre: seq<Block>, title: string, s: seq<Skill>, post: seq<Block>, i: nat)
    requires i < |s| && r == pre + SkillsSection(title, s) + post
    ensures |pre| + 1 + i < |r|
    ensures r[|pre|] == Heading(title) && r[|pre| + 1 + i] == Text(OfSkill, s[i].name)
  {
    SkillChips(s);
    assert r == pre + ([Heading(title)] + FlatMap(s, SkillEntry)) + post;
  }

  /** A heading `title` stands at position `o` of `r`. */
  predicate HeadingAt(r: seq<Block>, o: int, title: string)
  {
    0 <= o < |r| && r[o] == Heading(title)
  }

  /** Skill `i` of `s` is shown in `r` as the chip `i + 1` blocks after a
      heading `title` at position `o`. */
  predicate ChipAt(r: seq<Block>, o: int, title: string, s: seq<Skill>, i: int)
  {
    HeadingAt(r, o, title) && 0 <= i < |s| && o + 1 + i < |r| && r[o + 1 + i] == Text(OfSkill, s[i].name)
  }

  /** Element `i` of `s`, rendered by `f`, is shown in `r` after a heading
      `title` at position `o` and the blocks of the `i` elements before it. */
  predicate ListEntryAt<T>(r: seq<Block>, o: int, title: string, s: seq<T>, f: T -> seq<Block>, i: int)
  {
    HeadingAt(r, o, title) && 0 <= i < |s|
    && o + 1 + |FlatMap(s[..i], f)| + |f(s[i])| <= |r|
    && r[o + 1 + |FlatMap(s[..i], f)| .. o + 1 + |FlatMap(s[..i], f)| + |f(s[i])|] == f(s[i])
  }

  /** In a document `top + sec` whose `sec` is two sections, a skills
      section and `post`, the skills heading and chip `i` keep their places
      counted from the start of the document. */
  lemma SkillsInSections(r: seq<Block>, top: seq<Block>, sec: seq<Block>, x: seq<Block>, e: seq<Block>,
                         title: string, s: seq<Skill>, post: seq<Block>, i: nat, o: int)
    requires i < |s| && r == top + sec && sec == x + e + SkillsSection(title, s) + post
    requires o == |top| + |x| + |e|
    ensures ChipAt(r, o, title, s, i)
  {
    SkillAfter(sec, x + e, title, s, post, i);
  }

  /** In a document `top + sec` whose `sec` is three sections followed by
      a list section, element `i` of the list keeps its place counted from
      the start of the document. */
  lemma LastListInSections<T>(r: seq<Block>, top: seq<Block>, sec: seq<Block>, x: seq<Block>, e: seq<Block>,
                              k: seq<Block>, title: string, s: seq<T>, f: T -> seq<Block>, i: nat, o: int)
    requires forall j :: 0 <= j < |s| ==> IsEntryContent(f(s[j]))
    requires i < |s| && r == top + sec && sec == x + e + k + ListSection(title, s, f)
    requires o == |top| + |x| + |e| + |k|
    ensures ListEntryAt(r, o, title, s, f, i)
  {
    TrailingEmpty(sec);
    ListEntryAfter(sec, x + e + k, title, s, f, [], i, f(s[i]));
    assert ListEntryAt(sec, |x + e + k|, title, s, f, i);
    ListEntryShift(r, top, sec, |x + e + k|, o, title, s, f, i);
  }

  /** Skill `i`'s chip in a skills section placed right after `pre`. */
  lemma SkillsBetween(r: seq<Block>, pre: seq<Block>, title: string, s: seq<Skill>, post: seq<Block>, i: nat, o: int)
    requires i < |s| && r == pre + SkillsSection(title, s) + post && o == |pre|
    ensures ChipAt(r, o, title, s, i)
  {
    SkillAfter(r, pre, title, s, post, i);
  }

  /** Element `i`'s blocks in a list section placed right after `pre`. */
  lemma ListBetween<T>(r: seq<Block>, pre: seq<Block>, title: string, s: seq<T>, f: T -> seq<Block>,
                       post: seq<Block>, i: nat, o: int)
    requires forall j :: 0 <= j < |s| ==> IsEntryContent(f(s[j]))
    requires i < |s| && r == pre + ListSection(title, s, f) + post && o == |pre|
    ensures ListEntryAt(r, o, title, s, f, i)
  {
    ListEntryAfter(r, pre, title, s, f, post, i, f(s[i]));
  }

  /** An entry placed in `sec` keeps its place, shifted, behind `top`. */
  lemma ListEntryShift<T>(r: seq<Block>, top: seq<Block>, sec: seq<Block>, p: int, o: int,
                          title: string, s: seq<T>, f: T -> seq<Block>, i: int)
    requires ListEntryAt(sec, p, title, s, f, i) && r == top + sec && o == |top| + p
    ensures ListEntryAt(r, o, title, s, f, i)
  {
    var m, en := |FlatMap(s[..i], f)|, f(s[i]);
    SliceShift(top, sec, p + 1 + m, |en|, en);
  }

  /** In a document whose links are those of a projects section captioned
      "View Project", a link block is shown exactly when it is the link of a
      project with a non-empty url. */
  lemma ViewLinkMember(r: seq<Block>, s: seq<Project>, b: Block)
    requires b.Link? && Links(r) == FlatMap(s, ViewLink)
    ensures b in r <==> exists k :: 0 <= k < |s| && s[k].url != "" && b == Link(s[k].url, "View Project")
  {
    LinksMember(r, b);
    FlatMapMember(s, ViewLink, b);
  }

  /** The same for a projects section whose links show the url itself. */
  lemma UrlLinkMember(r: seq<Block>, s: seq<Project>, b: Block)
    requires b.Link? && Links(r) == FlatMap(s, UrlLink)
    ensures b in r <==> exists k :: 0 <= k < |s| && s[k].url != "" && b == Link(s[k].url, s[k].url)
  {
    LinksMember(r, b);
    FlatMapMember(s, UrlLink, b);
  }

  // ---------------------------------------------------------------------
  // The header, rendered alike by all three layouts
  // ---------------------------------------------------------------------

  /** The contact fields shown, in order: email, phone and location, each
      exactly when it is non-empty. */
  function ContactFields(p: PersonalDetails): seq<PersonalField>
  {
    When(p.email != "", Email) + When(p.phone != "", Phone) + When(p.location != "", Location)
  }

  /** The personal fields every layout shows, in the order it shows them:
      name and title always, then the contact fields, then the summary
      exactly when it is non-empty. */
  function ShownPersonals(p: PersonalDetails): seq<PersonalField>
  {
    [Name, Title] + ContactFields(p) + When(p.summary != "", Summary)
  }

  /** A personal field is shown exactly when it is the name or the title or
      it is non-empty. */
  lemma ShownPersonalsIff(p: PersonalDetails, f: PersonalField)
    ensures f in ShownPersonals(p) <==> f == Name || f == Title || PersonalValue(p, f) != ""
  {
    var w1, w2, w3 := When(p.email != "", Email), When(p.phone != "", Phone), When(p.location != "", Location);
    var w4 := When(p.summary != "", Summary);
    assert f in [Name, Title] + (w1 + w2 + w3) + w4 <==> f in [Name, Title] || f in w1 || f in w2 || f in w3 || f in w4;
  }

  /** One personal field as a text block, only when it is non-empty. */
  function ContactItem(p: PersonalDetails, f: PersonalField): (r: seq<Block>)
    ensures Headings(r) == [] && Links(r) == []
    ensures Personals(r) == When(PersonalValue(p, f) != "", f)
  {
    SingleProjections(Text(Personal(f), PersonalValue(p, f)));
    When(PersonalValue(p, f) != "", Text(Personal(f), PersonalValue(p, f)))
  }

  /** Email, phone and location, each only when non-empty, in that order. */
  function ContactBlocks(p: PersonalDetails): (r: seq<Block>)
    ensures Headings(r) == [] && Links(r) == []
    ensures Personals(r) == ContactFields(p)
  {
    var e, ph, l := ContactItem(p, Email), ContactItem(p, Phone), ContactItem(p, Location);
    ProjectionsAppend(e, ph);
    ProjectionsAppend(e + ph, l);
    e + ph + l
  }

  /** Name and title, always shown even when empty, then the contact line. */
  function HeaderBlocks(p: PersonalDetails): (r: seq<Block>)
    ensures |r| >= 2 && r[0] == Text(Personal(Name), p.name) && r[1] == Text(Personal(Title), p.title)
    ensures Headings(r) == [] && Links(r) == []
    ensures Personals(r) == [Name, Title] + ContactFields(p)
  {
    var n, t := Text(Personal(Name), p.name), Text(Personal(Title), p.title);
    SingleProjections(n);
    SingleProjections(t);
    ProjectionsAppend([n], [t]);
    ProjectionsAppend([n] + [t], ContactBlocks(p));
    assert Personals([n] + [t]) == [Name, Title];
    [n] + [t] + ContactBlocks(p)
  }

  /** Every contact block is a personal text showing that field's
      non-empty value. */
  lemma ContactValues(p: PersonalDetails)
    ensures forall b :: b in ContactBlocks(p) ==>
      b.Text? && b.source.Personal? && b.text == PersonalValue(p, b.source.field) && b.text != ""
  {
    var e, ph, l := ContactItem(p, Email), ContactItem(p, Phone), ContactItem(p, Location);
    forall b | b in ContactBlocks(p)
      ensures b.Text? && b.source.Personal? && b.text == PersonalValue(p, b.source.field) && b.text != ""
    {
      InAppend3(e, ph, l, b);
    }
  }

  /** Every block of the header is a personal text showing that field's
      value. */
  lemma HeaderValues(p: PersonalDetails)
    ensures forall b :: b in HeaderBlocks(p) ==>
      b.Text? && b.source.Personal? && b.text == PersonalValue(p, b.source.field)
  {
    ContactValues(p);
    HeaderParts(p);
    NameTitleValues(HeaderBlocks(p), ContactBlocks(p), p);
  }

  /** Name and title in front of blocks that each show their own field's
      value keep that so. */
  lemma NameTitleValues(r: seq<Block>, c: seq<Block>, p: PersonalDetails)
    requires r == [Text(Personal(Name), p.name)] + [Text(Personal(Title), p.title)] + c
    requires forall b :: b in c ==> b.Text? && b.source.Personal? && b.text == PersonalValue(p, b.source.field) && b.text != ""
    ensures forall b :: b in r ==> b.Text? && b.source.Personal? && b.text == PersonalValue(p, b.source.field)
  {
    var n, t := Text(Personal(Name), p.name), Text(Personal(Title), p.title);
    forall b | b in r
      ensures b.Text? && b.source.Personal? && b.text == PersonalValue(p, b.source.field)
    {
      InAppend3([n], [t], c, b);
    }
  }

  /** The header is the name, the title and the contact blocks. */
  lemma HeaderParts(p: PersonalDetails)
    ensures HeaderBlocks(p) == [Text(Personal(Name), p.name)] + [Text(Personal(Title), p.title)] + ContactBlocks(p)
  {
  }

  /** `cond && <section><h2>title</h2><p>summary</p></section>`: the summary
      under its own heading, only when it is non-empty. */
  function SummarySection(title: string, p: PersonalDetails): (r: seq<Block>)
    ensures p.summary != "" ==> r == [Heading(title)] + [Text(Personal(Summary), p.summary)]
    ensures p.summary == "" ==> r == []
    ensures Headings(r) == When(p.summary != "", title)
    ensures Personals(r) == When(p.summary != "", Summary)
    ensures Links(r) == []
  {
    var h, t := Heading(title), Text(Personal(Summary), p.summary);
    SingleProjections(h);
    SingleProjections(t);
    ProjectionsAppend([h], [t]);
    if p.summary != "" then [h] + [t] else []
  }
}
