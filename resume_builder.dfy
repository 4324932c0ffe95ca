/** The resume builder: it holds the record and the selected layout, takes
    the record the form produces, shows the selected layout and exports
    the preview as a one-page A4 PDF. Rasterising the preview and writing
    the PDF are foreign library calls; they are given to the model as an
    export environment that says how each step turns out. */
module ResumeBuilder {
  import opened ResumeTypes
  import opened Blocks
  import MinimalistTemplate
  import ProfessionalTemplate
  import CreativeTemplate

  datatype Option<T> = None | Some(value: T)

  // ---------------------------------------------------------------------
  // Initial state
  // ---------------------------------------------------------------------

  const InitialTemplate: string := "minimalist"

  // The seed record's texts.
  const SeedName: string := "John Doe"
  const SeedTitle: string := "Software Engineer"
  const SeedEmail: string := "john.doe@example.com"
  const SeedPhone: string := "(123) 456-7890"
  const SeedLocation: string := "New York, NY"
  const SeedSummary: string :=
    "Experienced software engineer with a passion for building user-friendly applications."
  const SeedInstitution: string := "University of Technology"
  const SeedDegree: string := "Bachelor of Science in Computer Science"
  const SeedStudyDescription: string :=
    "Graduated with honors. Relevant coursework included Data Structures, Algorithms, and Software Engineering."
  const SeedSeniorDescription: string :=
    "Developed and maintained web applications using React and Node.js. Led a team of 5 developers."
  const SeedJuniorDescription: string :=
    "Assisted in the development of mobile applications using React Native. Implemented UI components and fixed bugs."
  const SeedProjectDescription: string :=
    "Built a full-stack e-commerce platform with React, Node.js, and MongoDB."
  const SeedProjectUrl: string := "https://github.com/johndoe/ecommerce"

  /** The record the builder starts with. */
  function Seed(): ResumeData
  {
    ResumeData(
      PersonalDetails(SeedName, SeedTitle, SeedEmail, SeedPhone, SeedLocation, SeedSummary),
      [Education("1", SeedInstitution, SeedDegree, "2015 - 2019", SeedStudyDescription)],
      [Experience("1", "Tech Solutions Inc.", "Senior Software Engineer", "2019 - Present", SeedSeniorDescription),
       Experience("2", "Digital Innovations", "Junior Developer", "2017 - 2019", SeedJuniorDescription)],
      [Skill("1", "JavaScript"), Skill("2", "React"), Skill("3", "Node.js"), Skill("4", "TypeScript"), Skill("5", "HTML/CSS")],
      [Project("1", "E-commerce Platform", SeedProjectDescription, SeedProjectUrl)])
  }

  /** The seed holds one education entry, two experience entries, five
      skills and one project. */
  lemma SeedShape()
    ensures |Seed().education| == 1 && |Seed().experience| == 2
    ensures |Seed().skills| == 5 && |Seed().projects| == 1
  {
  }

  /** Seed ids are distinct within each section, but not across sections:
      the education entry and the first experience entry share id "1". */
  lemma SeedIds()
    ensures DistinctIds(Seed().education, EducationId) && DistinctIds(Seed().experience, ExperienceId)
    ensures DistinctIds(Seed().skills, SkillId) && DistinctIds(Seed().projects, ProjectId)
    ensures Seed().education[0].id == Seed().experience[0].id
  {
    var s := Seed().skills;
    forall i, j | 0 <= i < j < |s| ensures SkillId(s[i]) != SkillId(s[j]) {
      assert SkillId(s[i])[0] != SkillId(s[j])[0];
    }
  }

  // ---------------------------------------------------------------------
  // Layout dispatch
  // ---------------------------------------------------------------------

  /** The preview of the selected layout: each of the three layouts is
      rendered exactly when its name is selected. */
  function PreviewOf(selected: string, d: ResumeData): seq<Block>
  {
    (if selected == "minimalist" then MinimalistTemplate.Render(d) else [])
    + (if selected == "professional" then ProfessionalTemplate.Render(d) else [])
    + (if selected == "creative" then CreativeTemplate.Render(d) else [])
  }

  /** Each of the three names renders exactly its own layout, and any other
      value renders nothing. */
  lemma Dispatch(selected: string, d: ResumeData)
    ensures selected == "minimalist" ==> PreviewOf(selected, d) == MinimalistTemplate.Render(d)
    ensures selected == "professional" ==> PreviewOf(selected, d) == ProfessionalTemplate.Render(d)
    ensures selected == "creative" ==> PreviewOf(selected, d) == CreativeTemplate.Render(d)
    ensures selected !in {"minimalist", "professional", "creative"} ==> PreviewOf(selected, d) == []
  {
    SelectOne(selected, MinimalistTemplate.Render(d), ProfessionalTemplate.Render(d), CreativeTemplate.Render(d));
  }

  /** The three guarded parts of the preview: at most one is present. */
  lemma SelectOne<T>(selected: string, m: seq<T>, p: seq<T>, c: seq<T>)
    ensures var r := (if selected == "minimalist" then m else [])
      + (if selected == "professional" then p else [])
      + (if selected == "creative" then c else []);
      && (selected == "minimalist" ==> r == m)
      && (selected == "professional" ==> r == p)
      && (selected == "creative" ==> r == c)
      && (selected !in {"minimalist", "professional", "creative"} ==> r == [])
  {
    if selected == "minimalist" {
      assert |selected| == 10;
      assert m + [] + [] == m;
    } else if selected == "professional" {
      assert |selected| == 12;
      assert [] + p + [] == p;
    } else if selected == "creative" {
      assert [] + [] + c == c;
    }
  }

  /** Something is shown exactly when one of the three layouts is selected;
      every layout shows at least the name and the title. */
  lemma PreviewShown(selected: string, d: ResumeData)
    ensures PreviewOf(selected, d) != [] <==> selected in {"minimalist", "professional", "creative"}
  {
    Dispatch(selected, d);
    if selected == "minimalist" {
      MinimalistTemplate.PageStart(d);
    } else if selected == "professional" {
      ProfessionalTemplate.PageStart(d);
    } else if selected == "creative" {
      CreativeTemplate.PageStart(d);
    }
  }

  // ---------------------------------------------------------------------
  // Page fitting
  // ---------------------------------------------------------------------

  /** Width of the placed image in millimetres: the width of an A4 page. */
  const PageWidth: real := 210.0

  /** Height of an A4 page in millimetres. */
  const A4Height: real := 297.0

  /** Height of the placed image: the canvas scaled to the page width. */
  function ImgHeight(canvasHeight: nat, canvasWidth: nat): (h: real)
    requires canvasWidth > 0
    ensures h * canvasWidth as real == canvasHeight as real * PageWidth
    ensures h >= 0.0
  {
    canvasHeight as real * PageWidth / canvasWidth as real
  }

  /** The image keeps the canvas's aspect ratio. */
  lemma AspectRatioKept(canvasHeight: nat, canvasWidth: nat)
    requires canvasWidth > 0
    ensures ImgHeight(canvasHeight, canvasWidth) / PageWidth == canvasHeight as real / canvasWidth as real
  {
  }

  /** A 1000 by 1500 canvas gives an image 315 millimetres high. */
  lemma ImgHeightExample()
    ensures ImgHeight(1500, 1000) == 315.0
  {
  }

  /** The image is at least as high as it is wide exactly when the canvas
      is. */
  lemma TallIffTallCanvas(canvasHeight: nat, canvasWidth: nat)
    requires canvasWidth > 0
    ensures ImgHeight(canvasHeight, canvasWidth) >= PageWidth <==> canvasHeight >= canvasWidth
  {
    RatioKeepsOrder(ImgHeight(canvasHeight, canvasWidth), canvasHeight as real, canvasWidth as real, PageWidth);
  }

  /** When `x / k` equals `h / w` for positive `w` and `k`, `x` is at least
      `k` exactly when `h` is at least `w`. */
  lemma RatioKeepsOrder(x: real, h: real, w: real, k: real)
    requires w > 0.0 && k > 0.0 && x * w == h * k
    ensures x >= k <==> h >= w
  {
    ScaleKeepsOrder(x, k, w);
    ScaleKeepsOrder(h, w, k);
    assert k * w == w * k;
    assert x >= k <==> x * w >= k * w;
    assert h >= w <==> h * k >= w * k;
  }

  /** Multiplying by a positive factor keeps the order of two numbers. */
  lemma ScaleKeepsOrder(a: real, b: real, k: real)
    requires k > 0.0
    ensures a * k >= b * k <==> a >= b
  {
    if a >= b {
      assert (a - b) * k >= 0.0;
    } else {
      assert (b - a) * k > 0.0;
    }
  }

  // ---------------------------------------------------------------------
  // Export
  // ---------------------------------------------------------------------

  datatype Toast = Toast(title: string, description: string, destructive: bool)

  const Preparing := Toast("Preparing PDF...", "Please wait while we generate your resume", false)
  const Success := Toast("Success!", "Your resume has been downloaded", false)
  const Failure := Toast("Error", "Failed to generate PDF. Please try again.", true)

  const FileName: string := "smartsume-resume.pdf"

  /** What rasterising the preview at twice its size gives: a canvas of the
      given pixel size, or a thrown error. */
  datatype Capture = CaptureFailed | Captured(width: nat, height: nat)

  /** How the export's foreign steps turn out: whether the preview element
      is on the page, what rasterising it gives, and whether encoding the
      image, creating the PDF, placing the image or saving throws. */
  datatype ExportEnv = ExportEnv(previewMounted: bool, capture: Capture, writeFails: bool)

  /** One image placed on a page, in millimetres, showing `image`. */
  datatype Placement = Placement(x: real, y: real, width: real, height: real, image: seq<Block>)

  /** A PDF document: its pages, each the images placed on it. */
  datatype PdfDocument = PdfDocument(pages: seq<seq<Placement>>)

  datatype Download = Download(fileName: string, document: PdfDocument)

  /** The notifications shown and the file downloaded by one export. */
  datatype ExportOutcome = ExportOutcome(toasts: seq<Toast>, download: Option<Download>)

  /** A capture that can be placed: it succeeded with a non-zero width. */
  predicate Placeable(c: Capture)
  {
    c.Captured? && c.width > 0
  }

  /** The document an export of `preview` writes from a placeable capture:
      one page holding one image at the top left, as wide as the page. */
  function ExportDocument(c: Capture, preview: seq<Block>): PdfDocument
    requires Placeable(c)
  {
    PdfDocument([[Placement(0.0, 0.0, PageWidth, ImgHeight(c.height, c.width), preview)]])
  }

  /** The outcome of exporting `preview` in environment `env`. */
  function ExportOutcomeOf(env: ExportEnv, preview: seq<Block>): ExportOutcome
  {
    if !env.previewMounted then ExportOutcome([], None)
    else if !Placeable(env.capture) || env.writeFails then ExportOutcome([Preparing, Failure], None)
    else ExportOutcome([Preparing, Success], Some(Download(FileName, ExportDocument(env.capture, preview))))
  }

  /** Without the preview element the export does nothing at all. */
  lemma ExportWithoutPreview(env: ExportEnv, preview: seq<Block>)
    requires !env.previewMounted
    ensures ExportOutcomeOf(env, preview).toasts == [] && ExportOutcomeOf(env, preview).download == None
  {
  }

  /** A file is downloaded exactly when every step succeeds; it is then
      "smartsume-resume.pdf", a single page holding the preview as one
      image at (0, 0), 210 millimetres wide and as high as the canvas's
      aspect ratio demands; the success notice follows the preparing
      notice. */
  lemma ExportSucceeds(env: ExportEnv, preview: seq<Block>)
    ensures ExportOutcomeOf(env, preview).download.Some? <==>
      env.previewMounted && env.capture.Captured? && env.capture.width > 0 && !env.writeFails
    ensures ExportOutcomeOf(env, preview).download.Some? ==>
      var c := env.capture;
      && ExportOutcomeOf(env, preview).toasts == [Preparing, Success]
      && ExportOutcomeOf(env, preview).download.value.fileName == "smartsume-resume.pdf"
      && ExportOutcomeOf(env, preview).download.value.document.pages
         == [[Placement(0.0, 0.0, 210.0, c.height as real * 210.0 / c.width as real, preview)]]
  {
  }

  /** A failing step after the preview is found gives exactly one
      notification besides the preparing one: the destructive error
      notice. */
  lemma ExportFails(env: ExportEnv, preview: seq<Block>)
    requires env.previewMounted && (!Placeable(env.capture) || env.writeFails)
    ensures ExportOutcomeOf(env, preview).toasts == [Preparing, Failure]
    ensures ExportOutcomeOf(env, preview).download == None
    ensures Failure.destructive && !Preparing.destructive && !Success.destructive
  {
  }

  /** There is no pagination: a canvas taller than the page ratio still
      gives one page with one image that runs past the bottom of the A4
      page. */
  lemma NoPagination(env: ExportEnv, preview: seq<Block>)
    requires env == ExportEnv(true, Captured(1000, 2000), false)
    ensures var doc := ExportOutcomeOf(env, preview).download.value.document;
      |doc.pages| == 1 && |doc.pages[0]| == 1 && doc.pages[0][0].height > A4Height
  {
    assert ImgHeight(2000, 1000) == 420.0;
  }

  // ---------------------------------------------------------------------
  // The builder's state
  // ---------------------------------------------------------------------

  class Builder {
    var selectedTemplate: string
    var resumeData: ResumeData
    /** Notifications shown so far, oldest first. */
    var toasts: seq<Toast>
    /** Files downloaded so far, oldest first. */
    var downloads: seq<Download>

    /** What the preview shows. */
    function Preview(): seq<Block>
      reads this
    {
      PreviewOf(selectedTemplate, resumeData)
    }

    /** The builder starts on the minimalist layout with the seed record. */
    constructor()
      ensures selectedTemplate == InitialTemplate && resumeData == Seed()
      ensures toasts == [] && downloads == []
    {
      selectedTemplate := InitialTemplate;
      resumeData := Seed();
      toasts := [];
      downloads := [];
    }

    /** The form's record replaces the held one; nothing else changes. */
    method HandleFormChange(newData: ResumeData)
      modifies this
      ensures resumeData == newData
      ensures selectedTemplate == old(selectedTemplate)
      ensures toasts == old(toasts) && downloads == old(downloads)
      ensures Preview() == PreviewOf(old(selectedTemplate), newData)
    {
      resumeData := newData;
    }

    /** Choosing a tab selects that layout; nothing else changes. */
    method SetSelectedTemplate(value: string)
      modifies this
      ensures selectedTemplate == value
      ensures resumeData == old(resumeData)
      ensures toasts == old(toasts) && downloads == old(downloads)
    {
      selectedTemplate := value;
    }

    /** Export the preview: the notifications and the download of
        `ExportOutcomeOf` are appended; the record and the selected layout
        are left as they were. */
    method ExportToPdf(env: ExportEnv)
      modifies this
      ensures resumeData == old(resumeData) && selectedTemplate == old(selectedTemplate)
      ensures toasts == old(toasts) + ExportOutcomeOf(env, old(Preview())).toasts
      ensures downloads == old(downloads) +
        match ExportOutcomeOf(env, old(Preview())).download
        case None => []
        case Some(f) => [f]
    {
      if !env.previewMounted {
        return;
      }
      toasts := toasts + [Preparing];
      var capture := env.capture;
      if !Placeable(capture) {
        toasts := toasts + [Failure];
        return;
      }
      var imgWidth := PageWidth;
      var imgHeight := capture.height as real * imgWidth / capture.width as real;
      var pdf := PdfDocument([[Placement(0.0, 0.0, imgWidth, imgHeight, Preview())]]);
      if env.writeFails {
        toasts := toasts + [Failure];
        return;
      }
      downloads := downloads + [Download(FileName, pdf)];
      toasts := toasts + [Success];
    }
  }
}
