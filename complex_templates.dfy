/**
 * The flowable lists of the two designs of `resume_templates_complex.py`
 * (modern two-column and visual block) and `create_complex_resume`. As for the
 * unique designs, each is given as a function of the resume and the contact
 * details, section by section, and as the methods that grow the `elements`
 * list the way `create_pdf` does, proved to produce that list.
 */
module ComplexTemplates {
  import opened Wrappers
  import opened Text
  import opened Content
  import opened Styles
  import opened Layout

  // ----------------------------------------------------------------- modern

  /** The modern contact line: bare email, the phone behind "H: ", bare location, joined by " | ". */
  function ModernContact(p: Person): string
  {
    ContactLine(p, "", "H: ", "", " | ")
  }

  function ModernHeader(p: Person): seq<Block>
  {
    [Para(Name, NameText(p)), Para(Contact, ModernContact(p))]
  }

  /** A full-width accent bar holding a section title, and the spacer after it. */
  function ModernBar(title: string): seq<Block>
  {
    [Para(Banner, title), Spacer(15)]
  }

  /** The left cell of a modern work entry: period, bold title and company on three lines. */
  function ModernDates(e: Experience): string
  {
    Show(e.period) + "<br/>" + "<b>" + Show(e.title) + "</b><br/>" + Show(e.company)
  }

  /** One modern work entry: a two-cell row (dates on the left, bullets on the right) and a spacer. */
  function ModernEntry(e: Experience): seq<Block>
  {
    [TwoColumn(Para(Dates, ModernDates(e)), Bullets(BulletMark, e.achievements)), Spacer(12)]
  }

  function ModernDegreeLine(d: Education): string
  {
    Show(d.year) + "<br/><b>" + Show(d.degree) + "</b>: " + Show(d.institution)
  }

  function ModernDegree(d: Education): seq<Block>
  {
    [Para(EducationLine, ModernDegreeLine(d)), Spacer(10)]
  }

  /** The summary bar and paragraph are emitted whether or not there is a summary. */
  function ModernSummary(c: Resume): seq<Block>
  {
    ModernBar("PROFESSIONAL SUMMARY") + [Para(Body, SummaryText(c)), Spacer(20)]
  }

  function ModernSkills(c: Resume): seq<Block>
  {
    if c.skills != [] then ModernBar("SKILLS") + [Grid(SkillPairs(c.skills)), Spacer(20)] else []
  }

  function ModernExperience(c: Resume): seq<Block>
  {
    if c.experience != [] then ModernBar("WORK HISTORY") + ConcatMap(ModernEntry, c.experience) else []
  }

  function ModernEducation(c: Resume): seq<Block>
  {
    if c.education != [] then ModernBar("EDUCATION") + ConcatMap(ModernDegree, c.education) else []
  }

  /** The flowables of `ModernTwoColumnTemplate.create_pdf`. */
  function ModernBlocks(c: Resume, p: Person): seq<Block>
  {
    ModernHeader(p) + ModernSummary(c) + ModernSkills(c) + ModernExperience(c) + ModernEducation(c)
  }

  /**
   * The body of the modern experience loop: the left paragraph, the right column
   * grown one bullet per achievement, the two-cell row and its spacer. The loop
   * around it is `AppendEach` with `ModernEntry`.
   */
  method MakeModernEntry(e: Experience) returns (blocks: seq<Block>)
    ensures blocks == ModernEntry(e)
  {
    var left := Para(Dates, ModernDates(e));
    var right := AppendBullets([], BulletMark, e.achievements);
    assert [] + Bullets(BulletMark, e.achievements) == Bullets(BulletMark, e.achievements);
    blocks := [TwoColumn(left, right), Spacer(12)];
  }

  method AppendModernSummary(elements: seq<Block>, c: Resume) returns (out: seq<Block>)
    ensures out == elements + ModernSummary(c)
  {
    out := elements + ModernBar("PROFESSIONAL SUMMARY");
    out := out + [Para(Body, SummaryText(c)), Spacer(20)];
  }

  method AppendModernSkills(elements: seq<Block>, c: Resume) returns (out: seq<Block>)
    ensures out == elements + ModernSkills(c)
  {
    out := elements;
    if c.skills != [] {
      out := out + ModernBar("SKILLS");
      var rows := TwoColumnRows(c.skills);
      out := out + [Grid(rows), Spacer(20)];
    }
  }

  method AppendModernExperience(elements: seq<Block>, c: Resume) returns (out: seq<Block>)
    ensures out == elements + ModernExperience(c)
  {
    out := elements;
    if c.experience != [] {
      out := out + ModernBar("WORK HISTORY");
      out := AppendEach(out, ModernEntry, c.experience);
    }
  }

  method AppendModernEducation(elements: seq<Block>, c: Resume) returns (out: seq<Block>)
    ensures out == elements + ModernEducation(c)
  {
    out := elements;
    if c.education != [] {
      out := out + ModernBar("EDUCATION");
      out := AppendEach(out, ModernDegree, c.education);
    }
  }

  /** `ModernTwoColumnTemplate.create_pdf` up to `doc.build`: the `elements` list it appends to. */
  method BuildModern(c: Resume, p: Person) returns (elements: seq<Block>)
    ensures elements == ModernBlocks(c, p)
  {
    elements := [Para(Name, NameText(p))];
    elements := elements + [Para(Contact, ModernContact(p))];
    ghost var built := ModernHeader(p);
    assert elements == built;
    elements := AppendModernSummary(elements, c);
    built := built + ModernSummary(c);
    assert elements == built;
    elements := AppendModernSkills(elements, c);
    built := built + ModernSkills(c);
    assert elements == built;
    elements := AppendModernExperience(elements, c);
    built := built + ModernExperience(c);
    assert elements == built;
    elements := AppendModernEducation(elements, c);
    built := built + ModernEducation(c);
    assert elements == built;
  }

  /**
   * A modern work entry is one two-cell row and a spacer; the left cell is the
   * dates paragraph and the right cell holds one bullet per achievement, in order.
   */
  lemma ModernEntryShape(e: Experience)
    ensures |ModernEntry(e)| == 2 && ModernEntry(e)[1] == Spacer(12)
    ensures ModernEntry(e)[0].TwoColumn? && ModernEntry(e)[0].left == Para(Dates, ModernDates(e))
    ensures |ModernEntry(e)[0].right| == |e.achievements|
    ensures ParasOf(Bullet, ModernEntry(e)[0].right) == AchievementBullets(e)
    ensures ParasOf(Banner, ModernEntry(e)) == []
  {
    BulletsAreItems(BulletMark, e.achievements);
    ParasOfNone(Banner, ModernEntry(e));
  }

  lemma ModernSummaryRoles(c: Resume)
    ensures ParasOf(Banner, ModernSummary(c)) == ["PROFESSIONAL SUMMARY"]
  {
    ParasOfLead(Banner, ModernSummary(c));
  }

  lemma ModernSkillsRoles(c: Resume)
    ensures ParasOf(Banner, ModernSkills(c)) == Listed(c.skills != [], "SKILLS")
  {
    if c.skills != [] {
      ParasOfLead(Banner, ModernSkills(c));
    }
  }

  lemma ModernExperienceRoles(c: Resume)
    ensures ParasOf(Banner, ModernExperience(c)) == Listed(c.experience != [], "WORK HISTORY")
  {
    if c.experience != [] {
      forall i | 0 <= i < |c.experience|
        ensures ParasOf(Banner, ModernEntry(c.experience[i])) == []
      {
        ParasOfNone(Banner, ModernEntry(c.experience[i]));
      }
      HeadedList(Banner, ModernBar("WORK HISTORY"), ModernEntry, c.experience);
    }
  }

  lemma ModernEducationRoles(c: Resume)
    ensures ParasOf(Banner, ModernEducation(c)) == Listed(c.education != [], "EDUCATION")
  {
    if c.education != [] {
      forall i | 0 <= i < |c.education|
        ensures ParasOf(Banner, ModernDegree(c.education[i])) == []
      {
        ParasOfNone(Banner, ModernDegree(c.education[i]));
      }
      HeadedList(Banner, ModernBar("EDUCATION"), ModernDegree, c.education);
    }
  }

  /**
   * The accent bars read, top to bottom: the summary bar always, then skills,
   * work history and education, each exactly when its list is non-empty.
   */
  lemma ModernBarOrder(c: Resume, p: Person)
    ensures ParasOf(Banner, ModernBlocks(c, p)) ==
      ["PROFESSIONAL SUMMARY"]
      + Listed(c.skills != [], "SKILLS")
      + Listed(c.experience != [], "WORK HISTORY")
      + Listed(c.education != [], "EDUCATION")
  {
    ParasOfNone(Banner, ModernHeader(p));
    ModernSummaryRoles(c);
    ModernSkillsRoles(c);
    ModernExperienceRoles(c);
    ModernEducationRoles(c);
    ParasOfSections(Banner, ModernHeader(p), ModernSummary(c), ModernSkills(c), ModernExperience(c), ModernEducation(c),
      ["PROFESSIONAL SUMMARY"], Listed(c.skills != [], "SKILLS"),
      Listed(c.experience != [], "WORK HISTORY"), Listed(c.education != [], "EDUCATION"));
  }

  /**
   * With skills, the skill table follows the skills bar: its left column then
   * its right column list every skill once, in order, padded by one blank
   * exactly when the number of skills is odd.
   */
  lemma ModernSkillTable(c: Resume)
    requires c.skills != []
    ensures ModernSkills(c)[2] == Grid(SkillPairs(c.skills))
    ensures Column(SkillPairs(c.skills), 0) + Column(SkillPairs(c.skills), 1)
      == seq(|c.skills| + |c.skills| % 2, i requires 0 <= i < |c.skills| + |c.skills| % 2 =>
           BulletCell(if i < |c.skills| then c.skills[i] else ""))
  {
    SkillPairsReadInOrder(c.skills);
  }

  /** With nothing but a name the document is the name, the contact line and the empty summary. */
  lemma ModernEmptyContent(c: Resume, p: Person)
    requires c.summary.None? && c.skills == [] && c.experience == [] && c.education == []
    ensures ModernBlocks(c, p) ==
      [Para(Name, NameText(p)), Para(Contact, ModernContact(p)),
       Para(Banner, "PROFESSIONAL SUMMARY"), Spacer(15), Para(Body, ""), Spacer(20)]
  {
  }

  // ----------------------------------------------------------------- visual

  /** The visual contact line: email, phone and location as given, joined by " | ". */
  function VisualContact(p: Person): string
  {
    ContactLine(p, "", "", "", " | ")
  }

  /** The name on the full-width accent bar, then the contact line. */
  function VisualHeader(p: Person): seq<Block>
  {
    [Para(Banner, NameText(p)), Spacer(8), Para(Contact, VisualContact(p)), Spacer(20)]
  }

  /** The two-row profile table: the heading, then the summary (empty when missing). */
  function VisualSummary(c: Resume): seq<Block>
  {
    [Boxed([Para(Heading, "PROFILE"), Para(Body, SummaryText(c))]), Spacer(15)]
  }

  function VisualSkills(c: Resume): seq<Block>
  {
    if c.skills != [] then [Para(Heading, "EXPERTISE"), Spacer(8), Grid(CellRows(GridRows(c.skills, 4))), Spacer(20)] else []
  }

  function VisualMeta(e: Experience): string
  {
    Show(e.company) + " | " + Show(e.period)
  }

  /** The content of one boxed visual entry: title, meta, spacer, one bullet per achievement. */
  function VisualBox(e: Experience): seq<Block>
  {
    [Para(JobTitle, Show(e.title)), Para(Meta, VisualMeta(e)), Spacer(5)] + Bullets(BulletMark, e.achievements)
  }

  function VisualEntry(e: Experience): seq<Block>
  {
    [Boxed(VisualBox(e)), Spacer(12)]
  }

  function VisualDegreeLine(d: Education): string
  {
    "<b>" + Show(d.degree) + "</b> - " + Show(d.institution) + " (" + Show(d.year) + ")"
  }

  function VisualDegree(d: Education): seq<Block>
  {
    [Para(EducationLine, VisualDegreeLine(d)), Spacer(5)]
  }

  function VisualExperience(c: Resume): seq<Block>
  {
    if c.experience != [] then [Para(Heading, "EXPERIENCE"), Spacer(8)] + ConcatMap(VisualEntry, c.experience) else []
  }

  function VisualEducation(c: Resume): seq<Block>
  {
    if c.education != [] then [Para(Heading, "EDUCATION"), Spacer(8)] + ConcatMap(VisualDegree, c.education) else []
  }

  /** The flowables of `VisualBlockTemplate.create_pdf`. */
  function VisualBlocks(c: Resume, p: Person): seq<Block>
  {
    VisualHeader(p) + VisualSummary(c) + VisualSkills(c) + VisualExperience(c) + VisualEducation(c)
  }

  /**
   * The body of the visual experience loop that fills one box: title, meta,
   * spacer and the bullet loop. The loop around it is `AppendEach` with `VisualEntry`.
   */
  method MakeVisualBox(e: Experience) returns (content: seq<Block>)
    ensures content == VisualBox(e)
  {
    content := [Para(JobTitle, Show(e.title))];
    content := content + [Para(Meta, VisualMeta(e))];
    content := content + [Spacer(5)];
    content := AppendBullets(content, BulletMark, e.achievements);
  }

  method AppendVisualSummary(elements: seq<Block>, c: Resume) returns (out: seq<Block>)
    ensures out == elements + VisualSummary(c)
  {
    out := elements + [Boxed([Para(Heading, "PROFILE"), Para(Body, SummaryText(c))])];
    out := out + [Spacer(15)];
  }

  method AppendVisualSkills(elements: seq<Block>, c: Resume) returns (out: seq<Block>)
    ensures out == elements + VisualSkills(c)
  {
    out := elements;
    if c.skills != [] {
      out := out + [Para(Heading, "EXPERTISE"), Spacer(8)];
      var rows := SkillGrid(c.skills, 4);
      out := out + [Grid(rows), Spacer(20)];
    }
  }

  method AppendVisualExperience(elements: seq<Block>, c: Resume) returns (out: seq<Block>)
    ensures out == elements + VisualExperience(c)
  {
    out := elements;
    if c.experience != [] {
      out := out + [Para(Heading, "EXPERIENCE"), Spacer(8)];
      out := AppendEach(out, VisualEntry, c.experience);
    }
  }

  method AppendVisualEducation(elements: seq<Block>, c: Resume) returns (out: seq<Block>)
    ensures out == elements + VisualEducation(c)
  {
    out := elements;
    if c.education != [] {
      out := out + [Para(Heading, "EDUCATION"), Spacer(8)];
      out := AppendEach(out, VisualDegree, c.education);
    }
  }

  /** `VisualBlockTemplate.create_pdf` up to `doc.build`: the `elements` list it appends to. */
  method BuildVisual(c: Resume, p: Person) returns (elements: seq<Block>)
    ensures elements == VisualBlocks(c, p)
  {
    elements := [Para(Banner, NameText(p)), Spacer(8)];
    elements := elements + [Para(Contact, VisualContact(p)), Spacer(20)];
    ghost var built := VisualHeader(p);
    assert elements == built;
    elements := AppendVisualSummary(elements, c);
    built := built + VisualSummary(c);
    assert elements == built;
    elements := AppendVisualSkills(elements, c);
    built := built + VisualSkills(c);
    assert elements == built;
    elements := AppendVisualExperience(elements, c);
    built := built + VisualExperience(c);
    assert elements == built;
    elements := AppendVisualEducation(elements, c);
    built := built + VisualEducation(c);
    assert elements == built;
  }

  /**
   * A visual work entry is one box and a spacer; the box holds title, meta and
   * spacer, then one bullet per achievement in order, and no section heading.
   */
  lemma VisualEntryShape(e: Experience)
    ensures |VisualEntry(e)| == 2 && VisualEntry(e)[0] == Boxed(VisualBox(e)) && VisualEntry(e)[1] == Spacer(12)
    ensures |VisualBox(e)| == |e.achievements| + 3
    ensures ParasOf(Bullet, VisualBox(e)) == AchievementBullets(e)
    ensures ParasOf(Heading, VisualBox(e)) == []
  {
    var head := [Para(JobTitle, Show(e.title)), Para(Meta, VisualMeta(e)), Spacer(5)];
    ParasOfNone(Bullet, head);
    ParasOfNone(Heading, head);
    assert VisualBox(e) == head + Bullets(BulletMark, e.achievements) + [];
    BulletedEntry(head, BulletMark, e.achievements, [], Heading);
  }

  lemma VisualHeaderRoles(p: Person)
    ensures ParasOf(Heading, VisualHeader(p)) == [] && ParasOf(Banner, VisualHeader(p)) == [NameText(p)]
  {
    ParasOfNone(Heading, VisualHeader(p));
    ParasOfLead(Banner, VisualHeader(p));
  }

  lemma VisualSummaryRoles(c: Resume)
    ensures ParasOf(Heading, VisualSummary(c)) == [] && ParasOf(Banner, VisualSummary(c)) == []
  {
    ParasOfNone(Heading, VisualSummary(c));
    ParasOfNone(Banner, VisualSummary(c));
  }

  lemma VisualSkillsRoles(c: Resume)
    ensures ParasOf(Heading, VisualSkills(c)) == Listed(c.skills != [], "EXPERTISE")
    ensures ParasOf(Banner, VisualSkills(c)) == []
  {
    if c.skills != [] {
      ParasOfLead(Heading, VisualSkills(c));
    }
    ParasOfNone(Banner, VisualSkills(c));
  }

  lemma VisualExperienceRoles(c: Resume)
    ensures ParasOf(Heading, VisualExperience(c)) == Listed(c.experience != [], "EXPERIENCE")
    ensures ParasOf(Banner, VisualExperience(c)) == []
  {
    if c.experience != [] {
      var head := [Para(Heading, "EXPERIENCE"), Spacer(8)];
      assert ParasOf(Heading, VisualExperience(c)) == [head[0].text] by {
        forall i | 0 <= i < |c.experience| ensures ParasOf(Heading, VisualEntry(c.experience[i])) == [] {
          ParasOfNone(Heading, VisualEntry(c.experience[i]));
        }
        HeadedList(Heading, head, VisualEntry, c.experience);
      }
      assert ParasOf(Banner, VisualExperience(c)) == [] by {
        forall i | 0 <= i < |c.experience| ensures ParasOf(Banner, VisualEntry(c.experience[i])) == [] {
          ParasOfNone(Banner, VisualEntry(c.experience[i]));
        }
        HeadedListNone(Banner, head, VisualEntry, c.experience);
      }
    }
  }

  lemma VisualEducationRoles(c: Resume)
    ensures ParasOf(Heading, VisualEducation(c)) == Listed(c.education != [], "EDUCATION")
    ensures ParasOf(Banner, VisualEducation(c)) == []
  {
    if c.education != [] {
      var head := [Para(Heading, "EDUCATION"), Spacer(8)];
      assert ParasOf(Heading, VisualEducation(c)) == [head[0].text] by {
        forall i | 0 <= i < |c.education| ensures ParasOf(Heading, VisualDegree(c.education[i])) == [] {
          ParasOfNone(Heading, VisualDegree(c.education[i]));
        }
        HeadedList(Heading, head, VisualDegree, c.education);
      }
      assert ParasOf(Banner, VisualEducation(c)) == [] by {
        forall i | 0 <= i < |c.education| ensures ParasOf(Banner, VisualDegree(c.education[i])) == [] {
          ParasOfNone(Banner, VisualDegree(c.education[i]));
        }
        HeadedListNone(Banner, head, VisualDegree, c.education);
      }
    }
  }

  /** The profile table, heading and summary, is always the fifth flowable, missing summary or not. */
  lemma VisualProfileTable(c: Resume, p: Person)
    ensures |VisualBlocks(c, p)| >= 6
    ensures VisualBlocks(c, p)[4] == Boxed([Para(Heading, "PROFILE"), Para(Body, SummaryText(c))])
  {
    var rest := VisualSkills(c) + VisualExperience(c) + VisualEducation(c);
    assert VisualBlocks(c, p) == VisualHeader(p) + VisualSummary(c) + rest;
    assert (VisualHeader(p) + VisualSummary(c) + rest)[4] == VisualSummary(c)[0];
  }

  /**
   * The top-level section headings read expertise, experience, education, each
   * exactly when its list is non-empty (the profile heading sits inside the
   * summary table).
   */
  lemma VisualSectionOrder(c: Resume, p: Person)
    ensures ParasOf(Heading, VisualBlocks(c, p)) ==
      Listed(c.skills != [], "EXPERTISE")
      + Listed(c.experience != [], "EXPERIENCE")
      + Listed(c.education != [], "EDUCATION")
  {
    assert ParasOf(Heading, VisualHeader(p)) == [] by { VisualHeaderRoles(p); }
    assert ParasOf(Heading, VisualSummary(c)) == [] by { VisualSummaryRoles(c); }
    assert ParasOf(Heading, VisualSkills(c)) == Listed(c.skills != [], "EXPERTISE") by { VisualSkillsRoles(c); }
    assert ParasOf(Heading, VisualExperience(c)) == Listed(c.experience != [], "EXPERIENCE") by {
      VisualExperienceRoles(c);
    }
    assert ParasOf(Heading, VisualEducation(c)) == Listed(c.education != [], "EDUCATION") by {
      VisualEducationRoles(c);
    }
    ParasOfLaterSections(Heading, VisualHeader(p), VisualSummary(c), VisualSkills(c), VisualExperience(c), VisualEducation(c),
      Listed(c.skills != [], "EXPERTISE"), Listed(c.experience != [], "EXPERIENCE"), Listed(c.education != [], "EDUCATION"));
  }

  /** The name is the one line set on an accent bar, and it opens the document. */
  lemma VisualNameBanner(c: Resume, p: Person)
    ensures ParasOf(Banner, VisualBlocks(c, p)) == [NameText(p)]
    ensures VisualBlocks(c, p)[0] == Para(Banner, NameText(p))
  {
    assert ParasOf(Banner, VisualHeader(p)) == [NameText(p)] by { VisualHeaderRoles(p); }
    assert ParasOf(Banner, VisualSummary(c)) == [] by { VisualSummaryRoles(c); }
    assert ParasOf(Banner, VisualSkills(c)) == [] by { VisualSkillsRoles(c); }
    assert ParasOf(Banner, VisualExperience(c)) == [] by { VisualExperienceRoles(c); }
    assert ParasOf(Banner, VisualEducation(c)) == [] by { VisualEducationRoles(c); }
    ParasOf5(Banner, VisualHeader(p), VisualSummary(c), VisualSkills(c), VisualExperience(c), VisualEducation(c));
    assert [NameText(p)] + [] + [] + [] + [] == [NameText(p)];
  }

  /** With no skills, experience or education the document is the header and the profile table. */
  lemma VisualEmptyContent(c: Resume, p: Person)
    requires c.skills == [] && c.experience == [] && c.education == []
    ensures VisualBlocks(c, p) == VisualHeader(p) + VisualSummary(c)
  {
  }

  // --------------------------------------------------------------- dispatch

  /** What `create_complex_resume` draws: the design, the accent colour and the flowables. */
  datatype ComplexRendering = ComplexRendering(kind: ComplexKind, accent: string, blocks: seq<Block>)

  function ComplexBlocks(kind: ComplexKind, c: Resume, p: Person): seq<Block>
  {
    match kind
    case Modern => ModernBlocks(c, p)
    case Visual => VisualBlocks(c, p)
  }

  /**
   * `create_complex_resume`: look the colour up among the eight complex accents
   * (blue by default), pick the design by the template if-chain, and build it.
   */
  method CreateComplexResume(c: Resume, p: Person, template: string, color: Option<string>)
    returns (r: ComplexRendering)
    ensures r.kind == ComplexTemplate(template) && (r.kind == Visual <==> template == "visual")
    ensures r.accent == ComplexAccentColor(color) && IsHexColor(r.accent)
    ensures r.blocks == ComplexBlocks(r.kind, c, p)
  {
    var hex := ComplexAccentColor(color);
    var blocks: seq<Block>;
    if template == "modern" {
      blocks := BuildModern(c, p);
      r := ComplexRendering(Modern, hex, blocks);
    } else if template == "visual" {
      blocks := BuildVisual(c, p);
      r := ComplexRendering(Visual, hex, blocks);
    } else {
      blocks := BuildModern(c, p);
      r := ComplexRendering(Modern, hex, blocks);
    }
  }
}
