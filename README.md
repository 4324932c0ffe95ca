# Smartsume resume model

A Dafny model of the core of Smartsume, a resume builder. Smartsume holds one
resume record and edits it through form handlers. It shows the record in one
of three layouts (minimalist, professional, creative) and exports the preview
as a one-page A4 PDF.

The model has these modules:

- `ResumeTypes` (`resume_types.dfy`): the record.
  - A personal-details record with six string fields.
  - Four ordered, id-keyed sections: education, experience, skills and projects.
  - Each entry kind's editable fields as a closed enumeration.
- `ResumeForm` (`resume_form.dfy`): the form handlers, as pure functions from a record to a record.
  - Set a personal field.
  - Update one field on every entry with a given id.
  - Append a blank entry under a supplied fresh id.
  - Remove every entry with a given id.
- `Blocks` (`blocks.dfy`): the abstract view the layouts produce, and the parts the three layouts share.
  - A layout produces a flat sequence of headings, text blocks and links.
  - Each text block is tagged with the record field it shows.
  - Projections pick out the headings, the shown personal fields and the links of a document.
- `ShownItems` (`items.dfy`): the texts a document shows, grouped by the part of the record they come from.
  - Independent reference lists give, for each part, the texts a layout should show, in the record's order.
- `Badge` (`badge.dfy`): the creative layout's initials badge.
  - It splits the name on spaces, takes the first character of each piece and joins the characters.
  - It is proved equal to an independent "first letter of every word" definition.
- `MinimalistTemplate`, `ProfessionalTemplate` and `CreativeTemplate`: the three layouts.
  - Each is a total function from the record to blocks.
  - For each layout the model proves which headings appear, in which order and when.
  - It also proves which personal fields and links are shown, and where each experience, education, skill and project entry sits under its heading.
  - And it proves which texts are shown, in order: for each part of the record separately, and across parts in the order the reader meets them.
- `ResumeBuilder` (`resume_builder.dfy`): the controller.
  - The seed record and the initial layout.
  - The three-way layout dispatch.
  - The page-fitting arithmetic of the export.
  - The outcome of an export, with rasterising and PDF writing given as an abstract environment.
  - A `Builder` class whose methods replace the held record, select a layout and run an export step by step.

## Model

| member | source | states |
|---|---|---|
| ResumeTypes.PersonalDetailsExtensional | types/resume.ts:1-8 | two personal-details records that agree on all six fields (name, title, email, phone, location, summary) are equal: the six fields are the whole record |
| ResumeTypes.EducationExtensional | types/resume.ts:10-16 | an education entry is exactly its id plus institution, degree, date and description |
| ResumeTypes.ExperienceExtensional | types/resume.ts:18-24 | an experience entry is exactly its id plus company, position, date and description |
| ResumeTypes.ProjectExtensional | types/resume.ts:31-36 | a project is exactly its id plus name, description and url |
| ResumeTypes.CountId | components/resume-form.tsx:75-80 | the number of entries of a section with a given id is at most the section's length, and zero exactly when no entry has that id |
| ResumeTypes.CountIdDistinct | components/resume-form.tsx:75-80 | in a section whose ids are pairwise distinct, a present id occurs exactly once |
| ResumeForm.UpdateWhere | components/resume-form.tsx:31-57 | the `map` of the entry handlers: same length, every entry with the id updated, every other entry identical and in place |
| ResumeForm.RemoveWhere | components/resume-form.tsx:75-80 | the `filter` of the remove handlers: no entry with the id survives, the length shrinks by the number of matches, nothing new appears, and with no match the section is unchanged |
| ResumeForm.RemoveKeepsOrder | components/resume-form.tsx:75-80 | the survivors of a removal are a subsequence of the section: relative order is kept |
| ResumeForm.RemoveKeepsSurvivors | components/resume-form.tsx:75-80 | every entry with another id survives a removal |
| ResumeForm.RemoveKeepsDistinct | components/resume-form.tsx:75-80 | removal keeps pairwise-distinct ids distinct |
| ResumeForm.AppendFreshKeepsDistinct | components/resume-form.tsx:59-73 | appending an entry whose id is not yet in the section keeps ids pairwise distinct |
| ResumeForm.PersonalWith | components/resume-form.tsx:24-27 | the spread `{...personalDetails, [field]: value}`: the chosen field holds the new value and every other field keeps its value |
| ResumeForm.HandlePersonalChange | components/resume-form.tsx:21-29 | the chosen personal field is the new value, the other five fields and all four sections are unchanged |
| ResumeForm.EducationWith | components/resume-form.tsx:34 | an education field edit sets that field, keeps the others and never changes the id |
| ResumeForm.ExperienceWith | components/resume-form.tsx:41 | an experience field edit sets that field, keeps the others and never changes the id |
| ResumeForm.ProjectWith | components/resume-form.tsx:55 | a project field edit sets that field, keeps the others and never changes the id |
| ResumeForm.HandleEducationChange | components/resume-form.tsx:31-36 | every education entry with the id gets the field set, other entries are identical, length and order are kept, the rest of the record is unchanged; with an absent id the record is returned as is |
| ResumeForm.HandleExperienceChange | components/resume-form.tsx:38-43 | the same for experience |
| ResumeForm.HandleSkillChange | components/resume-form.tsx:45-50 | every skill with the id gets the new name and keeps its id, other skills are identical, the rest of the record is unchanged; with an absent id the record is returned as is |
| ResumeForm.HandleProjectChange | components/resume-form.tsx:52-57 | the same for projects |
| ResumeForm.AddEducation | components/resume-form.tsx:59-73 | the section grows by one, the old entries are an unchanged prefix, the new entry has the fresh id and four empty fields, the rest of the record is unchanged, and a fresh id keeps ids distinct |
| ResumeForm.AddExperience | components/resume-form.tsx:82-96 | the same for experience |
| ResumeForm.AddSkill | components/resume-form.tsx:105-116 | the same for skills, with an empty name |
| ResumeForm.AddProject | components/resume-form.tsx:125-138 | the same for projects, with empty name, description and url |
| ResumeForm.RemoveEducation | components/resume-form.tsx:75-80 | no education entry has the id afterwards, the length shrinks by the number of matches, survivors keep their order, distinct ids stay distinct, every other entry survives, the rest of the record is unchanged |
| ResumeForm.RemoveExperience | components/resume-form.tsx:98-103 | the same for experience |
| ResumeForm.RemoveSkill | components/resume-form.tsx:118-123 | the same for skills |
| ResumeForm.RemoveProject | components/resume-form.tsx:140-145 | the same for projects |
| ResumeForm.RemoveIsIdempotent | components/resume-form.tsx:75-145 | removing the same id twice gives the same record as removing it once, in every section |
| ResumeForm.RemovePresentDistinctShrinksByOne | components/resume-form.tsx:75-80 | when ids are distinct, removing a present id shrinks the section by exactly one |
| Blocks.FlatMapMember | components/templates/minimalist-template.tsx:54-63 | a block is produced by a `map` over a section exactly when some entry produces it |
| Blocks.ProjectionsAppend | components/templates/minimalist-template.tsx:11-130 | headings, shown fields, personal fields and links of consecutive parts of a document are those of the parts, in order |
| Blocks.ListSection | components/templates/minimalist-template.tsx:48-66 | a `length > 0 &&` section is empty when it has no entries and otherwise opens with its heading; it shows no personal field, and its links are its entries' links |
| Blocks.ExperienceEntry | components/templates/minimalist-template.tsx:55-62 | an experience entry is four text blocks showing position, date, company and description, in that order, with no heading and no link |
| Blocks.ExperienceEntryValues | components/templates/minimalist-template.tsx:55-62 | each block of an experience entry shows that entry's own value of its field |
| Blocks.EducationEntry | components/templates/minimalist-template.tsx:76-83 | an education entry is four text blocks showing degree, date, institution and description, in that order |
| Blocks.EducationEntryValues | components/templates/minimalist-template.tsx:76-83 | each block of an education entry shows that entry's own value of its field |
| Blocks.SkillEntry | components/templates/minimalist-template.tsx:96-100 | a skill shows its name and nothing else |
| Blocks.ProjectEntry | components/templates/minimalist-template.tsx:111-124 | a project's first block is its name, its second its description, and after them comes only its link, present exactly when its url is non-empty |
| Blocks.ProjectEntryValues | components/templates/minimalist-template.tsx:111-124 | the text blocks of a project show that project's own name and description |
| Blocks.ViewProjectEntry | components/templates/professional-template.tsx:124-137 | the professional and creative project entry links to the url under the caption "View Project" exactly when the url is non-empty |
| Blocks.UrlProjectEntry | components/templates/minimalist-template.tsx:114-123 | the minimalist project entry links to the url with the url itself as caption exactly when the url is non-empty |
| Blocks.EntryAt | components/templates/minimalist-template.tsx:53-64 | in a section whose entries render four blocks each, entry `i` occupies the four positions after the heading and the `i` entries before it |
| Blocks.SkillChips | components/templates/minimalist-template.tsx:95-101 | the skills list has one block per skill, block `i` showing skill `i`'s name |
| Blocks.ExperienceSection | components/templates/minimalist-template.tsx:48-66 | the experience section has its heading exactly when the section is non-empty, opens with it, and has no personal field or link |
| Blocks.EducationSection | components/templates/minimalist-template.tsx:69-87 | the same for education |
| Blocks.SkillsSection | components/templates/minimalist-template.tsx:90-103 | the same for skills; where each chip sits under the heading is stated by SkillAfter |
| Blocks.ViewProjectsSection | components/templates/professional-template.tsx:119-140 | the projects section opens with its heading exactly when non-empty, and its links are the "View Project" links of the projects with a url, in order; where each entry sits is stated by ListEntryAfter |
| Blocks.UrlProjectsSection | components/templates/minimalist-template.tsx:106-128 | the projects section opens with its heading exactly when non-empty, and its links are the url links of the projects with a url, in order; where each entry sits is stated by ListEntryAfter |
| Blocks.ExperienceAt | components/templates/minimalist-template.tsx:54-63 | experience entry `i` sits right after the heading and the `i` entries before it |
| Blocks.EducationAt | components/templates/minimalist-template.tsx:75-84 | education entry `i` sits right after the heading and the `i` entries before it |
| Blocks.ViewLinkMember | components/templates/professional-template.tsx:127-136 | a link is in a document whose links are "View Project" links exactly when it is the "View Project" link of a project with a non-empty url |
| Blocks.UrlLinkMember | components/templates/minimalist-template.tsx:114-123 | a link is in a document whose links are url links exactly when it is the url link of a project with a non-empty url |
| Blocks.ShownPersonalsIff | components/templates/minimalist-template.tsx:15-45 | a personal field is shown exactly when it is the name or the title or its value is non-empty |
| Blocks.ContactItem | components/templates/minimalist-template.tsx:19-24 | one contact field is shown exactly when its value is non-empty |
| Blocks.ContactBlocks | components/templates/minimalist-template.tsx:18-37 | email, phone and location are shown, in that order, each exactly when non-empty |
| Blocks.HeaderBlocks | components/templates/minimalist-template.tsx:14-38 | the header opens with the name and the title, always shown even when empty, followed by the contact fields |
| Blocks.ContactValues | components/templates/minimalist-template.tsx:19-36 | every contact block shows the record's own non-empty value of its field |
| Blocks.HeaderValues | components/templates/minimalist-template.tsx:14-38 | every header block shows the record's own value of its field |
| Blocks.SummarySection | components/templates/professional-template.tsx:42-47 | a summary section is the heading followed by the record's summary text when the summary is non-empty, and nothing otherwise |
| Blocks.EducationAfterParts | components/templates/minimalist-template.tsx:69-128 | whatever precedes the experience section, education entry `i` follows it, the experience section, the Education heading and the `i` entries before it |
| Blocks.ExperienceAfterParts | components/templates/minimalist-template.tsx:48-128 | whatever precedes the experience section, experience entry `i` follows it, the heading and the `i` entries before it, whatever sections come after |
| Blocks.ListEntryAfter | components/templates/minimalist-template.tsx:106-128 | in a list section placed after any prefix, the heading comes right after the prefix and entry `i`'s blocks come right after the heading and the blocks of entries `0 .. i-1` |
| Blocks.EntryAfterHead | components/templates/minimalist-template.tsx:109-126 | in a `map` placed right after a heading, element `i`'s blocks come right after the heading and the blocks of elements `0 .. i-1` |
| Blocks.SkillAfter | components/templates/minimalist-template.tsx:90-103 | in a skills section placed after any prefix, the Skills heading comes right after the prefix and skill `i`'s chip `i + 1` blocks after the heading |
| Blocks.SkillsInSections | components/templates/minimalist-template.tsx:47-103 | when the skills section is the third of the sections after a top part, skill `i`'s chip stands under the heading at the given offset |
| Blocks.LastListInSections | components/templates/minimalist-template.tsx:47-128 | when the projects section closes the sections after a top part, project `i`'s blocks stand under the heading at the given offset, after the blocks of the projects before it |
| Blocks.SkillsBetween | components/templates/creative-template.tsx:57-69 | a skills section placed right after a prefix has its heading there and skill `i`'s chip `i + 1` blocks further |
| Blocks.ListBetween | components/templates/creative-template.tsx:73-94 | a list section placed right after a prefix has its heading there and element `i`'s blocks after the heading and the elements before it |
| Blocks.ListEntryShift | components/templates/minimalist-template.tsx:8-131 | an entry placed under a heading in one part of a document keeps its place, shifted, when another part is put in front |
| ShownItems.ItemsAppend | components/templates/minimalist-template.tsx:11-130 | the texts of consecutive parts of a document are the texts of the parts, in order |
| ShownItems.FlatMapItems | components/templates/minimalist-template.tsx:54-63 | a section's `map` shows the texts of its entries, entry after entry |
| ShownItems.ListSectionItems | components/templates/minimalist-template.tsx:48-66 | a `length > 0 &&` section shows exactly its entries' texts; the heading adds none |
| ShownItems.ExperienceEntryItems | components/templates/minimalist-template.tsx:55-62 | an experience entry shows its position, date, company and description, in that order, and no text of another part |
| ShownItems.EducationEntryItems | components/templates/minimalist-template.tsx:76-83 | an education entry shows its degree, date, institution and description, in that order |
| ShownItems.ProjectEntryItems | components/templates/minimalist-template.tsx:111-124 | a project shows its name and then its description, whatever caption its link carries |
| ShownItems.ExperienceSectionItems | components/templates/minimalist-template.tsx:48-66 | the experience section shows the texts of every entry, entry by entry in section order, and nothing else |
| ShownItems.EducationSectionItems | components/templates/minimalist-template.tsx:69-87 | the education section shows the texts of every entry, entry by entry in section order, and nothing else |
| ShownItems.SkillsSectionItems | components/templates/minimalist-template.tsx:90-103 | the skills section shows one name per skill, in section order, and nothing else |
| ShownItems.ViewProjectsSectionItems | components/templates/professional-template.tsx:119-141 | the professional and creative projects section shows every project's name and description, in section order |
| ShownItems.UrlProjectsSectionItems | components/templates/minimalist-template.tsx:106-128 | the minimalist projects section shows every project's name and description, in section order |
| ShownItems.ContactItemItems | components/templates/minimalist-template.tsx:19-24 | a contact item shows the field's value when it is non-empty, and nothing otherwise |
| ShownItems.ContactBlocksItems | components/templates/minimalist-template.tsx:18-37 | the contact line shows the email, phone and location values in that order, each when non-empty |
| ShownItems.HeaderItems | components/templates/minimalist-template.tsx:14-38 | the header shows the name, the title, then the non-empty contact values |
| ShownItems.SummarySectionItems | components/templates/professional-template.tsx:42-47 | a summary section shows the summary text when it is non-empty, and nothing otherwise |
| ShownItems.TextsAppend | components/templates/minimalist-template.tsx:11-130 | the texts of consecutive parts of a document, whatever part of the record they come from, are those of the parts, in order |
| ShownItems.TextsOfOnePart | components/templates/minimalist-template.tsx:11-130 | a part of a document that shows texts of one part of the record only shows them in exactly the order the per-part list gives |
| ShownItems.ExperienceSectionTexts | components/templates/minimalist-template.tsx:48-66 | every text the experience section shows, in document order, is its entries' texts, entry by entry |
| ShownItems.EducationSectionTexts | components/templates/minimalist-template.tsx:69-87 | the same for the education section |
| ShownItems.SkillsSectionTexts | components/templates/minimalist-template.tsx:90-103 | every text the skills section shows is a skill's name, in section order |
| ShownItems.ViewProjectsSectionTexts | components/templates/professional-template.tsx:119-140 | every text the "View Project" projects section shows is a project's name or description, project by project; captions add none |
| ShownItems.UrlProjectsSectionTexts | components/templates/minimalist-template.tsx:106-128 | the same for the minimalist projects section |
| ShownItems.ContactBlocksTexts | components/templates/minimalist-template.tsx:18-37 | the contact line shows the email, phone and location values in that order, each when non-empty |
| ShownItems.ContactItemTexts | components/templates/minimalist-template.tsx:19-24 | one personal field shows its value exactly when the value is non-empty |
| ShownItems.HeaderTexts | components/templates/minimalist-template.tsx:14-38 | the header shows the name, the title and then the contact values, in that order |
| ShownItems.SummarySectionTexts | components/templates/professional-template.tsx:42-47 | a summary section shows the summary exactly when it is non-empty; its heading adds no text |
| ShownItems.FourSectionsTexts | components/templates/minimalist-template.tsx:47-128 | four sections one after another show the experience, then education, then skill, then project texts |
| Badge.SplitOnSpace | components/templates/creative-template.tsx:22 | `split(" ")`; specified by SplitFrom (at least one piece), SplitFromJoin (no piece holds a space) and SplitJoinRoundTrip (joining with a space gives the name back) |
| Badge.Join | components/templates/creative-template.tsx:22-24 | `join`; specified by SplitFromJoin and SplitJoinRoundTrip, the round trip with `SplitOnSpace` |
| Badge.Heads | components/templates/creative-template.tsx:23-24 | `map((name) => name[0]).join("")`; specified by SplitFromInitials, which equates it on split pieces with the reference word-start initials |
| Badge.Initials | components/templates/creative-template.tsx:21-24 | the badge text; specified by InitialsAreWordStarts (equal to the reference definition), InitialsMember and TwoWords |
| Badge.SplitFrom | components/templates/creative-template.tsx:22 | `split(" ")` always yields at least one piece |
| Badge.WordInitials | components/templates/creative-template.tsx:21-24 | the reference definition takes at most one character per character of the name |
| Badge.SplitFromJoin | components/templates/creative-template.tsx:22 | splitting on spaces and joining with a space gives the string back, and no piece contains a space |
| Badge.SplitJoinRoundTrip | components/templates/creative-template.tsx:22 | `split(" ").join(" ")` is the identity on every name |
| Badge.SplitFromInitials | components/templates/creative-template.tsx:21-24 | the first characters of the split pieces are the characters that start a word, with empty pieces contributing nothing |
| Badge.InitialsAreWordStarts | components/templates/creative-template.tsx:21-24 | the badge equals the reference "first character of every word" definition |
| Badge.WordInitialsMember | components/templates/creative-template.tsx:21-24 | a character is in the reference initials exactly when it is a non-space at the start of the string or right after a space |
| Badge.InitialsMember | components/templates/creative-template.tsx:21-24 | a character is in the badge exactly when some word of the name starts with it; the badge holds no space and is no longer than the name |
| Badge.WordInitialsNoSpace | components/templates/creative-template.tsx:21-24 | a name without spaces contributes only its first character |
| Badge.WordInitialsAppend | components/templates/creative-template.tsx:21-24 | the initials of a concatenation are the initials of the parts, the second part starting a word exactly when the first ends with a space |
| Badge.TwoWords | components/templates/creative-template.tsx:21-24 | a first and a last name without spaces give the two-letter badge of their first characters, so "John Doe" shows "JD" |
| MinimalistTemplate.SummaryParagraph | components/templates/minimalist-template.tsx:41-45 | the summary is a bare paragraph showing the record's summary text, with no heading, when non-empty, and nothing otherwise |
| MinimalistTemplate.Top | components/templates/minimalist-template.tsx:12-45 | the header and summary paragraph show no heading and no link, and every shown personal field in the order name, title, email, phone, location, summary |
| MinimalistTemplate.TopStart | components/templates/minimalist-template.tsx:14-16 | the header opens with the name and then the title |
| MinimalistTemplate.Sections | components/templates/minimalist-template.tsx:47-128 | the sections below the header have the headings Experience, Education, Skills, Projects, each exactly when non-empty, no personal field, and the projects' url links |
| MinimalistTemplate.PageStart | components/templates/minimalist-template.tsx:14-16 | the document opens with the name and then the title, whatever the record holds |
| MinimalistTemplate.SectionHeadings | components/templates/minimalist-template.tsx:48-128 | the headings are Experience, Education, Skills, Projects in that order, each exactly when its section is non-empty; with four empty sections there is no heading |
| MinimalistTemplate.PersonalOrder | components/templates/minimalist-template.tsx:14-45 | the personal fields are shown in the order name, title, email, phone, location, summary |
| MinimalistTemplate.PersonalFieldShown | components/templates/minimalist-template.tsx:15-45 | name and title are always shown, every other personal field exactly when non-empty |
| MinimalistTemplate.LinksInOrder | components/templates/minimalist-template.tsx:106-128 | the only links are the project url links, in project order |
| MinimalistTemplate.ProjectLinkShown | components/templates/minimalist-template.tsx:114-122 | a link is shown exactly when it is a project's non-empty url captioned with the url itself |
| MinimalistTemplate.ExperienceInOrder | components/templates/minimalist-template.tsx:54-63 | experience entry `i` is shown right after the header, the summary, the Experience heading and the `i` entries before it |
| MinimalistTemplate.ExperienceAfter | components/templates/minimalist-template.tsx:48-128 | whatever precedes the sections, experience entry `i` follows it, the Experience heading and the `i` entries before it |
| MinimalistTemplate.Render | components/templates/minimalist-template.tsx:8-131 | the layout; specified by PageStart, SectionHeadings, PersonalOrder, PersonalFieldShown, LinksInOrder, ProjectLinkShown, ExperienceInOrder, EducationInOrder, SkillsInOrder, ProjectsInOrder, ItemsInOrder and TextsInOrder |
| MinimalistTemplate.EducationInOrder | components/templates/minimalist-template.tsx:75-84 | education entry `i` is shown right after the header, the summary, the experience section, the Education heading and the `i` entries before it |
| MinimalistTemplate.EducationAfter | components/templates/minimalist-template.tsx:69-128 | whatever precedes the sections, education entry `i` follows it, the experience section, the Education heading and the `i` entries before it |
| MinimalistTemplate.ItemsInOrder | components/templates/minimalist-template.tsx:8-131 | the texts shown, taken one part of the record at a time: the personal values are name, title, then email, phone, location and summary each when non-empty; the experience texts are every entry's position, date, company and description; the education texts every entry's degree, date, institution and description; the skill texts every skill's name; the project texts every project's name and description; within each part in record order. The order across parts is stated by TextsInOrder |
| MinimalistTemplate.TopItems | components/templates/minimalist-template.tsx:14-45 | the header and summary paragraph show name, title, then email, phone, location and summary each when non-empty, and no entry text |
| MinimalistTemplate.SectionsItems | components/templates/minimalist-template.tsx:47-128 | the sections show every entry's texts, section by section in record order, and no personal value |
| MinimalistTemplate.TextsInOrder | components/templates/minimalist-template.tsx:8-131 | every text the document shows, across all parts, in document order: the name, the title, the non-empty email, phone, location and summary, then every experience entry's texts, every education entry's, every skill's name and every project's name and description, each section in record order |
| MinimalistTemplate.TopTexts | components/templates/minimalist-template.tsx:12-45 | the header and summary paragraph show name, title, the non-empty contact values and the non-empty summary, in that order |
| MinimalistTemplate.RenderParts | components/templates/minimalist-template.tsx:8-131 | the document is the top, then Experience, Education, Skills and Projects, in that order |
| MinimalistTemplate.SkillsInOrder | components/templates/minimalist-template.tsx:90-103 | the Skills heading stands right after the top, Experience and Education, and skill `i`'s chip stands `i + 1` blocks after it |
| MinimalistTemplate.ProjectsInOrder | components/templates/minimalist-template.tsx:106-128 | the Projects heading stands right after the Skills section, and project `i`'s blocks (name, description, link) follow it and the blocks of the projects before it |
| ProfessionalTemplate.Top | components/templates/professional-template.tsx:12-47 | the header and the summary section show the Professional Summary heading exactly when the summary is non-empty, no link, and every shown personal field in order |
| ProfessionalTemplate.TopStart | components/templates/professional-template.tsx:14-16 | the header opens with the name and then the title |
| ProfessionalTemplate.Sections | components/templates/professional-template.tsx:49-141 | the sections below the summary have the headings Professional Experience, Education, Skills, Projects, each exactly when non-empty, no personal field, and the "View Project" links |
| ProfessionalTemplate.PageStart | components/templates/professional-template.tsx:14-16 | the document opens with the name and then the title, whatever the record holds |
| ProfessionalTemplate.SectionHeadings | components/templates/professional-template.tsx:40-141 | the headings are Professional Summary, Professional Experience, Education, Skills, Projects in that order, each exactly when its content is non-empty |
| ProfessionalTemplate.PersonalOrder | components/templates/professional-template.tsx:14-47 | the personal fields are shown in the order name, title, email, phone, location, summary |
| ProfessionalTemplate.PersonalFieldShown | components/templates/professional-template.tsx:15-47 | name and title are always shown, every other personal field exactly when non-empty |
| ProfessionalTemplate.LinksInOrder | components/templates/professional-template.tsx:119-141 | the only links are the projects' "View Project" links, in project order |
| ProfessionalTemplate.ProjectLinkShown | components/templates/professional-template.tsx:127-136 | a link is shown exactly when it is the "View Project" link of a project with a non-empty url |
| ProfessionalTemplate.ExperienceInOrder | components/templates/professional-template.tsx:52-73 | experience entry `i` is shown right after the header, the summary section, the Professional Experience heading and the `i` entries before it |
| ProfessionalTemplate.ExperienceAfter | components/templates/professional-template.tsx:52-141 | whatever precedes the sections, experience entry `i` follows it, the Professional Experience heading and the `i` entries before it |
| ProfessionalTemplate.Render | components/templates/professional-template.tsx:8-147 | the layout; specified by PageStart, SectionHeadings, PersonalOrder, PersonalFieldShown, LinksInOrder, ProjectLinkShown, ExperienceInOrder, EducationInOrder, SkillsInOrder, ProjectsInOrder, ItemsInOrder and TextsInOrder |
| ProfessionalTemplate.EducationInOrder | components/templates/professional-template.tsx:76-96 | education entry `i` is shown right after the header, the summary section, the experience section, the Education heading and the `i` entries before it |
| ProfessionalTemplate.EducationAfter | components/templates/professional-template.tsx:76-141 | whatever precedes the sections, education entry `i` follows it, the experience section, the Education heading and the `i` entries before it |
| ProfessionalTemplate.ItemsInOrder | components/templates/professional-template.tsx:8-147 | the texts shown, taken one part of the record at a time: the personal values are name, title, then email, phone, location and summary each when non-empty; each section's texts are its entries' texts, within each part in record order. The order across parts is stated by TextsInOrder |
| ProfessionalTemplate.TopItems | components/templates/professional-template.tsx:14-47 | the header and summary section show name, title, then email, phone, location and summary each when non-empty, and no entry text |
| ProfessionalTemplate.SectionsItems | components/templates/professional-template.tsx:49-141 | the two columns show every entry's texts, section by section in record order, and no personal value |
| ProfessionalTemplate.TextsInOrder | components/templates/professional-template.tsx:8-147 | every text the document shows, across all parts, in document order: the name, the title, the non-empty email, phone, location and summary, then every experience, education, skill and project entry's texts, each section in record order |
| ProfessionalTemplate.TopTexts | components/templates/professional-template.tsx:12-47 | the header and the summary section show name, title, the non-empty contact values and the non-empty summary, in that order |
| ProfessionalTemplate.RenderParts | components/templates/professional-template.tsx:8-147 | the document is the top, then Professional Experience, Education, Skills and Projects, in that order |
| ProfessionalTemplate.SkillsInOrder | components/templates/professional-template.tsx:102-115 | the Skills heading stands right after the top, Professional Experience and Education, and skill `i`'s chip stands `i + 1` blocks after it |
| ProfessionalTemplate.ProjectsInOrder | components/templates/professional-template.tsx:119-140 | the Projects heading stands right after the Skills section, and project `i`'s blocks (name, description, "View Project" link) follow it and the blocks of the projects before it |
| CreativeTemplate.Identity | components/templates/creative-template.tsx:18-29 | the sidebar opens with the initials badge, the name and the title, the latter two always shown |
| CreativeTemplate.ContactSection | components/templates/creative-template.tsx:32-54 | the Contact heading is always shown, followed by email, phone and location, each exactly when non-empty |
| CreativeTemplate.SidebarTop | components/templates/creative-template.tsx:18-54 | badge, name, title and the Contact section together: one heading, no link, the name, title and contact fields in order |
| CreativeTemplate.Sidebar | components/templates/creative-template.tsx:15-97 | the sidebar headings are Contact, then Skills and Projects each exactly when non-empty; its links are the "View Project" links in project order |
| CreativeTemplate.MainColumn | components/templates/creative-template.tsx:100-162 | the main column headings are About Me, Experience, Education, each exactly when its content is non-empty, with no link |
| CreativeTemplate.PageStart | components/templates/creative-template.tsx:18-33 | the page opens with the initials badge, the name, the title and the Contact heading, whatever the record holds |
| CreativeTemplate.SectionHeadings | components/templates/creative-template.tsx:33-161 | the headings are Contact (always), Skills, Projects, About Me, Experience, Education, in that order, each of the last five exactly when its content is non-empty |
| CreativeTemplate.PersonalOrder | components/templates/creative-template.tsx:27-107 | the personal fields are shown in the order name, title, email, phone, location, summary |
| CreativeTemplate.PersonalFieldShown | components/templates/creative-template.tsx:27-107 | name and title are always shown, every other personal field exactly when non-empty |
| CreativeTemplate.LinksInOrder | components/templates/creative-template.tsx:73-95 | the only links are the projects' "View Project" links, in project order |
| CreativeTemplate.ProjectLinkShown | components/templates/creative-template.tsx:81-90 | a link is shown exactly when it is the "View Project" link of a project with a non-empty url |
| CreativeTemplate.ExperienceInOrder | components/templates/creative-template.tsx:110-134 | experience entry `i` is shown right after the sidebar, the About Me section, the Experience heading and the `i` entries before it |
| CreativeTemplate.EducationInOrder | components/templates/creative-template.tsx:137-161 | education entry `i` is shown right after the sidebar, the About Me and Experience sections, the Education heading and the `i` entries before it |
| CreativeTemplate.Render | components/templates/creative-template.tsx:8-166 | the layout; specified by PageStart, SectionHeadings, PersonalOrder, PersonalFieldShown, LinksInOrder, ProjectLinkShown, ExperienceInOrder, EducationInOrder, SkillsInOrder, ProjectsInOrder, ItemsInOrder and TextsInOrder |
| CreativeTemplate.MainColumnParts | components/templates/creative-template.tsx:100-162 | the main column is About Me, then Experience, then Education |
| CreativeTemplate.ExperienceAfter | components/templates/creative-template.tsx:110-134 | after any prefix and a summary part, experience entry `i` follows the Experience heading and the `i` entries before it |
| CreativeTemplate.EducationAfter | components/templates/creative-template.tsx:137-161 | after any prefix and the parts before it, education entry `i` follows the Education heading and the `i` entries before it |
| CreativeTemplate.ItemsInOrder | components/templates/creative-template.tsx:8-166 | the texts shown, taken one part of the record at a time: the initials badge; the personal values name, title, email, phone, location and summary as in the other layouts; each section's entries' texts; within each part in record order. The order across parts, sidebar before main column, is stated by TextsInOrder |
| CreativeTemplate.IdentityItems | components/templates/creative-template.tsx:18-29 | the top of the sidebar shows the initials badge, the name and the title |
| CreativeTemplate.ContactSectionItems | components/templates/creative-template.tsx:32-54 | the Contact section shows email, phone and location in that order, each when non-empty |
| CreativeTemplate.SidebarTopItems | components/templates/creative-template.tsx:18-54 | badge, name, title, then the non-empty contact values |
| CreativeTemplate.SidebarItems | components/templates/creative-template.tsx:15-97 | the sidebar shows badge, name, title, the contact values, every skill's name and every project's name and description, in that order |
| CreativeTemplate.MainColumnItems | components/templates/creative-template.tsx:100-162 | the main column shows the summary when non-empty, then every experience entry's texts, then every education entry's texts |
| CreativeTemplate.ColumnsItems | components/templates/creative-template.tsx:13-164 | the sidebar's texts followed by the main column's are the badge followed by the record's texts |
| CreativeTemplate.TextsInOrder | components/templates/creative-template.tsx:8-166 | every text the document shows, across all parts, in document order: the initials, name, title and non-empty contact values, every skill's name, every project's name and description, then the non-empty summary and every experience and education entry's texts |
| CreativeTemplate.IdentityTexts | components/templates/creative-template.tsx:18-29 | the top of the sidebar shows the initials, the name and the title, in that order |
| CreativeTemplate.ContactSectionTexts | components/templates/creative-template.tsx:32-54 | the Contact section shows the non-empty email, phone and location, in that order; its heading adds no text |
| CreativeTemplate.SidebarTexts | components/templates/creative-template.tsx:15-97 | the sidebar shows the identity, the contact values, the skills' names and the projects' texts, in that order |
| CreativeTemplate.MainColumnTexts | components/templates/creative-template.tsx:100-162 | the main column shows the non-empty summary, then the experience entries' texts, then the education entries' texts |
| CreativeTemplate.Columns | components/templates/creative-template.tsx:13-164 | the document is the sidebar followed by the main column |
| CreativeTemplate.SidebarBlocks | components/templates/creative-template.tsx:15-97 | the sidebar is identity and contact, then Skills, then Projects |
| CreativeTemplate.RenderParts | components/templates/creative-template.tsx:13-164 | the document is identity and contact, Skills, Projects and the main column, in that order |
| CreativeTemplate.ProjectsParts | components/templates/creative-template.tsx:13-164 | the same, with the Projects section as its list, and the Projects section starts right after identity, contact and Skills |
| CreativeTemplate.SkillsInOrder | components/templates/creative-template.tsx:57-69 | the Skills heading stands right after identity and contact, and skill `i`'s chip stands `i + 1` blocks after it |
| CreativeTemplate.ProjectsInOrder | components/templates/creative-template.tsx:73-94 | the Projects heading stands right after the Skills section, and project `i`'s blocks (name, description, "View Project" link) follow it and the blocks of the projects before it |
| ResumeBuilder.Seed | components/resume-builder.tsx:22-73 | the seed record; specified by SeedShape and SeedIds |
| ResumeBuilder.SeedShape | components/resume-builder.tsx:22-73 | the seed holds one education entry, two experience entries, five skills and one project |
| ResumeBuilder.SeedIds | components/resume-builder.tsx:31-71 | seed ids are distinct within each section, but education "1" and experience "1" share an id |
| ResumeBuilder.PreviewOf | components/resume-builder.tsx:226-228 | the rendered preview; specified by Dispatch and PreviewShown |
| ResumeBuilder.Dispatch | components/resume-builder.tsx:226-228 | "minimalist", "professional" and "creative" each render exactly their own layout, and any other value renders nothing |
| ResumeBuilder.PreviewShown | components/resume-builder.tsx:226-228 | the preview is non-empty exactly when one of the three layout names is selected |
| ResumeBuilder.ImgHeight | components/resume-builder.tsx:102-103 | the image height times the canvas width equals the canvas height times the page width of 210 |
| ResumeBuilder.AspectRatioKept | components/resume-builder.tsx:102-103 | the placed image keeps the canvas's aspect ratio |
| ResumeBuilder.ImgHeightExample | components/resume-builder.tsx:102-103 | a 1000 by 1500 canvas gives an image 315 millimetres high |
| ResumeBuilder.TallIffTallCanvas | components/resume-builder.tsx:102-103 | the image height is at least 210 exactly when the canvas height is at least the canvas width |
| ResumeBuilder.ExportOutcomeOf | components/resume-builder.tsx:79-119 | the export's notices and download; specified by ExportWithoutPreview, ExportSucceeds, ExportFails and NoPagination |
| ResumeBuilder.ExportWithoutPreview | components/resume-builder.tsx:80-81 | without the preview element the export shows no notification and downloads nothing |
| ResumeBuilder.ExportSucceeds | components/resume-builder.tsx:83-111 | a file is downloaded exactly when every step succeeds; it is "smartsume-resume.pdf", one page with one image of the preview at (0, 0), 210 wide and canvas height times 210 over canvas width high, and the notices are "Preparing PDF..." then "Success!" |
| ResumeBuilder.ExportFails | components/resume-builder.tsx:83-117 | a failing step gives "Preparing PDF..." then exactly one destructive "Error" notice and no download |
| ResumeBuilder.NoPagination | components/resume-builder.tsx:102-105 | a 1000 by 2000 canvas still gives one page with one image, 420 millimetres high and so running past the A4 page height of 297 |
| ResumeBuilder.Builder.constructor | components/resume-builder.tsx:21-73 | the builder starts on the minimalist layout with the seed record, no notification and no download |
| ResumeBuilder.Builder.HandleFormChange | components/resume-builder.tsx:75-77 | the held record becomes exactly the form's record; the layout, notifications and downloads are unchanged |
| ResumeBuilder.Builder.SetSelectedTemplate | components/resume-builder.tsx:191 | choosing a tab selects that layout; the record, notifications and downloads are unchanged |
| ResumeBuilder.Builder.ExportToPdf | components/resume-builder.tsx:79-119 | the step-by-step export appends exactly the notifications and download of the export outcome for the current preview, and leaves the record and the layout untouched |

## Left out

- The theme toggle (`components/resume-builder.tsx:121-123`), the accordion's expanded sections, animations, icons and every CSS class are left out. They are presentation only.
- Notifications are recorded as title, description and destructive flag. Their display and timing are not modelled.
- `uuidv4()` is not modelled. The add handlers take the fresh id as a parameter. Distinctness is proved under the hypothesis that the id is not yet in the section.
- `html2canvas`, `toDataURL`, `jsPDF`, `addImage` and `save` are foreign calls. An export environment stands in for them: whether the preview element is mounted, the canvas size or a thrown capture error, and whether a later PDF step throws. Image bytes are modelled as the preview's blocks.
- ResumeBuilder.ExportOutcomeOf: a zero-width canvas is treated as a failing step. JavaScript would divide by zero and pass an infinite or NaN height to the PDF library, whose behaviour is not part of this model.
- ResumeBuilder.ImgHeight: computed in exact real arithmetic. JavaScript computes `canvas.height * imgWidth / canvas.width` in IEEE doubles, which round, so the model's height can differ from the library's in the last bits.
- `exportToPDF` is asynchronous. Interleaving of two exports, or of an export and an edit, is not modelled. Each export runs to completion on the state it started from.
- `app/page.tsx` is not part of this model. It only wraps the builder in markup.
- The field names of the form handlers are a closed enumeration per entry kind. JavaScript's `[field]: value` with an arbitrary string, which could add a new key, is not modelled.
- Badge.Initials: JavaScript's `name[0]` takes a UTF-16 code unit. The model takes a Dafny `char`, so a name starting with a character outside the basic multilingual plane is not modelled faithfully.
- Layouts are modelled as flat block sequences. The two-column arrangement of the professional and creative layouts is kept only as document order (sidebar or main column first), not as geometry.
- Removal follows the code's `filter`, not a reading in which only the first matching entry is removed. `RemoveWhere` removes every entry with the id, and the section shrinks by exactly one only when ids are distinct.
