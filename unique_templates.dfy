/**
 * The flowable lists of the three designs of `resume_templates_unique.py`
 * (sidebar accent, diagonal header, circle accent) and `create_unique_resume`.
 * Each design is given twice: as a function of the resume and the contact
 * details, section by section, and as the methods that grow the `elements`
 * list the way `create_pdf` does, one `if` block at a time, proved to produce
 * that list.
 */
module UniqueTemplates {
  import opened Wrappers
  import opened Text
  import opened Content
  import opened Styles
  import opened Layout

  const Envelope := "\U{2709} "
  const Telephone := "\U{260E} "
  const Pin := "\U{1F4CD} "

  // ---------------------------------------------------------------- sidebar

  /** A sidebar heading's text: the title behind a filled circle. */
  function SidebarTitle(title: string): string
  {
    "\U{25CF} " + title
  }

  /** A sidebar section heading: the title and the short accent line under it. */
  function SidebarHeading(title: string): seq<Block>
  {
    [Para(Heading, SidebarTitle(title)), Rule]
  }

  function SidebarMeta(e: Experience): string
  {
    Show(e.company) + " | " + Show(e.period)
  }

  /** One sidebar work entry: title, meta line, spacer, one bullet per achievement, spacer. */
  function SidebarEntry(e: Experience): seq<Block>
  {
    [Para(JobTitle, "\U{25B8} " + Show(e.title)), Para(Meta, SidebarMeta(e)), Spacer(5)]
    + Bullets(BulletMark, e.achievements) + [Spacer(12)]
  }

  function SidebarDegreeLine(d: Education): string
  {
    "<b>" + Show(d.degree) + "</b> \U{2014} " + Show(d.institution) + " (" + Show(d.year) + ")"
  }

  function SidebarDegree(d: Education): seq<Block>
  {
    [Para(EducationLine, SidebarDegreeLine(d)), Spacer(6)]
  }

  function SidebarContact(p: Person): string
  {
    ContactLine(p, Envelope, Telephone, Pin, " \U{2022} ")
  }

  function SidebarHeader(p: Person): seq<Block>
  {
    [Para(Name, NameText(p)), Para(Contact, SidebarContact(p))]
  }

  function SidebarProfile(c: Resume): seq<Block>
  {
    if Truthy(c.summary) then SidebarHeading("PROFESSIONAL PROFILE") + [Para(Body, c.summary.value), Spacer(15)] else []
  }

  function SidebarExpertise(c: Resume): seq<Block>
  {
    if c.skills != [] then SidebarHeading("EXPERTISE") + [Grid(CellRows(GridRows(c.skills, 3))), Spacer(15)] else []
  }

  function SidebarExperience(c: Resume): seq<Block>
  {
    if c.experience != [] then SidebarHeading("PROFESSIONAL EXPERIENCE") + ConcatMap(SidebarEntry, c.experience) else []
  }

  function SidebarEducation(c: Resume): seq<Block>
  {
    if c.education != [] then SidebarHeading("EDUCATION") + ConcatMap(SidebarDegree, c.education) else []
  }

  /** The flowables of `SidebarAccentTemplate.create_pdf`. */
  function SidebarBlocks(c: Resume, p: Person): seq<Block>
  {
    SidebarHeader(p) + SidebarProfile(c) + SidebarExpertise(c) + SidebarExperience(c) + SidebarEducation(c)
  }

  /**
   * The body of the sidebar experience loop: title, meta and spacer, the bullet loop,
   * a spacer. The loop around it is `AppendEach` with `SidebarEntry`.
   */
  method AppendSidebarEntry(elements: seq<Block>, e: Experience) returns (out: seq<Block>)
    ensures out == elements + SidebarEntry(e)
  {
    out := elements + [Para(JobTitle, "\U{25B8} " + Show(e.title)), Para(Meta, SidebarMeta(e)), Spacer(5)];
    out := AppendBullets(out, BulletMark, e.achievements);
    out := out + [Spacer(12)];
  }


  method AppendSidebarProfile(elements: seq<Block>, c: Resume) returns (out: seq<Block>)
    ensures out == elements + SidebarProfile(c)
  {
    out := elements;
    if Truthy(c.summary) {
      out := out + SidebarHeading("PROFESSIONAL PROFILE");
      out := out + [Para(Body, c.summary.value), Spacer(15)];
    }
  }

  method AppendSidebarExpertise(elements: seq<Block>, c: Resume) returns (out: seq<Block>)
    ensures out == elements + SidebarExpertise(c)
  {
    out := elements;
    if c.skills != [] {
      out := out + SidebarHeading("EXPERTISE");
      var rows := SkillGrid(c.skills, 3);
      out := out + [Grid(rows), Spacer(15)];
    }
  }

  method AppendSidebarExperience(elements: seq<Block>, c: Resume) returns (out: seq<Block>)
    ensures out == elements + SidebarExperience(c)
  {
    out := elements;
    if c.experience != [] {
      out := out + SidebarHeading("PROFESSIONAL EXPERIENCE");
      out := AppendEach(out, SidebarEntry, c.experience);
    }
  }

  method AppendSidebarEducation(elements: seq<Block>, c: Resume) returns (out: seq<Block>)
    ensures out == elements + SidebarEducation(c)
  {
    out := elements;
    if c.education != [] {
      out := out + SidebarHeading("EDUCATION");
      out := AppendEach(out, SidebarDegree, c.education);
    }
  }

  /** `SidebarAccentTemplate.create_pdf` up to `doc.build`: the `elements` list it appends to. */
  method BuildSidebar(c: Resume, p: Person) returns (elements: seq<Block>)
    ensures elements == SidebarBlocks(c, p)
  {
    elements := [Para(Name, NameText(p))];
    elements := elements + [Para(Contact, SidebarContact(p))];
    ghost var built := SidebarHeader(p);
    assert elements == built;
    elements := AppendSidebarProfile(elements, c);
    built := built + SidebarProfile(c);
    assert elements == built;
    elements := AppendSidebarExpertise(elements, c);
    built := built + SidebarExpertise(c);
    assert elements == built;
    elements := AppendSidebarExperience(elements, c);
    built := built + SidebarExperience(c);
    assert elements == built;
    elements := AppendSidebarEducation(elements, c);
    built := built + SidebarEducation(c);
    assert elements == built;
  }

  /** A sidebar work entry is title, meta, spacer, one bullet per achievement in order, spacer. */
  lemma SidebarEntryShape(e: Experience)
    ensures |SidebarEntry(e)| == |e.achievements| + 4
    ensures SidebarEntry(e)[0] == Para(JobTitle, "\U{25B8} " + Show(e.title))
    ensures SidebarEntry(e)[2] == Spacer(5) && SidebarEntry(e)[|e.achievements| + 3] == Spacer(12)
    ensures ParasOf(Bullet, SidebarEntry(e)) == AchievementBullets(e)
    ensures ParasOf(Heading, SidebarEntry(e)) == []
  {
    SidebarEntryRoles(e);
    var n := |e.achievements|;
    assert SidebarEntry(e)[n + 3] == Spacer(12);
  }

  lemma SidebarEntryRoles(e: Experience)
    ensures |SidebarEntry(e)| == |e.achievements| + 4
    ensures ParasOf(Bullet, SidebarEntry(e)) == AchievementBullets(e)
    ensures ParasOf(Heading, SidebarEntry(e)) == []
  {
    var head := [Para(JobTitle, "\U{25B8} " + Show(e.title)), Para(Meta, SidebarMeta(e)), Spacer(5)];
    ParasOfNone(Bullet, head);
    ParasOfNone(Bullet, [Spacer(12)]);
    ParasOfNone(Heading, head);
    ParasOfNone(Heading, [Spacer(12)]);
    BulletedEntry(head, BulletMark, e.achievements, [Spacer(12)], Heading);
  }

  lemma SidebarHeaderRoles(p: Person)
    ensures ParasOf(Heading, SidebarHeader(p)) == [] && ParasOf(Bullet, SidebarHeader(p)) == []
  {
    ParasOfNone(Heading, SidebarHeader(p));
    ParasOfNone(Bullet, SidebarHeader(p));
  }

  lemma SidebarProfileRoles(c: Resume)
    ensures ParasOf(Heading, SidebarProfile(c)) == Listed(Truthy(c.summary), SidebarTitle("PROFESSIONAL PROFILE"))
    ensures ParasOf(Bullet, SidebarProfile(c)) == []
  {
    if Truthy(c.summary) {
      ParasOfLead(Heading, SidebarProfile(c));
    }
    ParasOfNone(Bullet, SidebarProfile(c));
  }

  lemma SidebarExpertiseRoles(c: Resume)
    ensures ParasOf(Heading, SidebarExpertise(c)) == Listed(c.skills != [], SidebarTitle("EXPERTISE"))
    ensures ParasOf(Bullet, SidebarExpertise(c)) == []
  {
    if c.skills != [] {
      ParasOfLead(Heading, SidebarExpertise(c));
    }
    ParasOfNone(Bullet, SidebarExpertise(c));
  }

  lemma SidebarExperienceRoles(c: Resume)
    ensures ParasOf(Heading, SidebarExperience(c)) ==
      Listed(c.experience != [], SidebarTitle("PROFESSIONAL EXPERIENCE"))
    ensures ParasOf(Bullet, SidebarExperience(c)) == ConcatStrings(AchievementBullets, c.experience)
  {
    if c.experience != [] {
      var head := SidebarHeading("PROFESSIONAL EXPERIENCE");
      forall i | 0 <= i < |c.experience|
        ensures ParasOf(Heading, SidebarEntry(c.experience[i])) == []
        ensures ParasOf(Bullet, SidebarEntry(c.experience[i])) == AchievementBullets(c.experience[i])
      {
        SidebarEntryShape(c.experience[i]);
      }
      HeadedList(Heading, head, SidebarEntry, c.experience);
      HeadedListParas(Bullet, head, SidebarEntry, AchievementBullets, c.experience);
    } else {
      ConcatStringsEmpty(AchievementBullets, c.experience);
    }
  }

  lemma SidebarDegreeRoles(d: Education)
    ensures ParasOf(Heading, SidebarDegree(d)) == [] && ParasOf(Bullet, SidebarDegree(d)) == []
  {
    ParasOfNone(Heading, SidebarDegree(d));
    ParasOfNone(Bullet, SidebarDegree(d));
  }

  lemma SidebarEducationRoles(c: Resume)
    ensures ParasOf(Heading, SidebarEducation(c)) == Listed(c.education != [], SidebarTitle("EDUCATION"))
    ensures ParasOf(Bullet, SidebarEducation(c)) == []
  {
    if c.education != [] {
      var head := SidebarHeading("EDUCATION");
      forall i | 0 <= i < |c.education|
        ensures ParasOf(Heading, SidebarDegree(c.education[i])) == []
        ensures ParasOf(Bullet, SidebarDegree(c.education[i])) == []
      {
        SidebarDegreeRoles(c.education[i]);
      }
      HeadedList(Heading, head, SidebarDegree, c.education);
      HeadedListNone(Bullet, head, SidebarDegree, c.education);
    }
  }

  /**
   * The section headings appear in the order profile, expertise, experience,
   * education, each exactly when its field is non-empty.
   */
  lemma SidebarSectionOrder(c: Resume, p: Person)
    ensures ParasOf(Heading, SidebarBlocks(c, p)) ==
      Listed(Truthy(c.summary), SidebarTitle("PROFESSIONAL PROFILE"))
      + Listed(c.skills != [], SidebarTitle("EXPERTISE"))
      + Listed(c.experience != [], SidebarTitle("PROFESSIONAL EXPERIENCE"))
      + Listed(c.education != [], SidebarTitle("EDUCATION"))
  {
    SidebarHeaderRoles(p);
    SidebarProfileRoles(c);
    SidebarExpertiseRoles(c);
    SidebarExperienceRoles(c);
    SidebarEducationRoles(c);
    ParasOfSections(Heading, SidebarHeader(p), SidebarProfile(c), SidebarExpertise(c), SidebarExperience(c), SidebarEducation(c),
      Listed(Truthy(c.summary), SidebarTitle("PROFESSIONAL PROFILE")), Listed(c.skills != [], SidebarTitle("EXPERTISE")),
      Listed(c.experience != [], SidebarTitle("PROFESSIONAL EXPERIENCE")), Listed(c.education != [], SidebarTitle("EDUCATION")));
  }

  /** The document's bullets are the achievements of every entry, marked, in order, none lost or merged. */
  lemma SidebarBullets(c: Resume, p: Person)
    ensures ParasOf(Bullet, SidebarBlocks(c, p)) == ConcatStrings(AchievementBullets, c.experience)
  {
    SidebarHeaderRoles(p);
    SidebarProfileRoles(c);
    SidebarExpertiseRoles(c);
    SidebarExperienceRoles(c);
    SidebarEducationRoles(c);
    ParasOfSections(Bullet, SidebarHeader(p), SidebarProfile(c), SidebarExpertise(c), SidebarExperience(c), SidebarEducation(c),
      [], [], ConcatStrings(AchievementBullets, c.experience), []);
  }

  /** With no summary, skills, experience or education the document is the name and the contact line. */
  lemma SidebarEmptyContent(c: Resume, p: Person)
    requires !Truthy(c.summary) && c.skills == [] && c.experience == [] && c.education == []
    ensures SidebarBlocks(c, p) == [Para(Name, NameText(p)), Para(Contact, SidebarContact(p))]
  {
  }

  // --------------------------------------------------------------- diagonal

  /** The inline skills paragraph: every skill in bold, joined by a bullet. */
  function InlineSkills(skills: seq<string>): string
  {
    Join(seq(|skills|, i requires 0 <= i < |skills| => "<b>" + skills[i] + "</b>"), " \U{2022} ")
  }

  function DiagonalMeta(e: Experience): string
  {
    Show(e.company) + " \U{2022} " + Show(e.period)
  }

  /** The content of one boxed diagonal entry: title, meta, spacer, one arrow bullet per achievement. */
  function DiagonalBox(e: Experience): seq<Block>
  {
    [Para(JobTitle, Show(e.title)), Para(Meta, DiagonalMeta(e)), Spacer(5)] + Bullets("\U{2192} ", e.achievements)
  }

  function DiagonalEntry(e: Experience): seq<Block>
  {
    [Boxed(DiagonalBox(e)), Spacer(10)]
  }

  function DiagonalDegreeLine(d: Education): string
  {
    "<b>" + Show(d.degree) + "</b> | " + Show(d.institution) + " | " + Show(d.year)
  }

  function DiagonalDegree(d: Education): seq<Block>
  {
    [Para(EducationLine, DiagonalDegreeLine(d)), Spacer(5)]
  }

  function DiagonalContact(p: Person): string
  {
    ContactLine(p, Envelope, Telephone, Pin, " \U{2502} ")
  }

  function DiagonalHeader(p: Person): seq<Block>
  {
    [Para(Contact, DiagonalContact(p))]
  }

  function DiagonalSummary(c: Resume): seq<Block>
  {
    if Truthy(c.summary) then [Para(Heading, "PROFESSIONAL SUMMARY"), Para(Body, c.summary.value), Spacer(12)] else []
  }

  function DiagonalSkills(c: Resume): seq<Block>
  {
    if c.skills != [] then [Para(Heading, "TECHNICAL SKILLS"), Para(SkillLine, InlineSkills(c.skills)), Spacer(12)] else []
  }

  function DiagonalExperience(c: Resume): seq<Block>
  {
    if c.experience != [] then [Para(Heading, "EXPERIENCE")] + ConcatMap(DiagonalEntry, c.experience) else []
  }

  function DiagonalEducation(c: Resume): seq<Block>
  {
    if c.education != [] then [Para(Heading, "EDUCATION")] + ConcatMap(DiagonalDegree, c.education) else []
  }

  /** The flowables of `DiagonalHeaderTemplate.create_pdf`: no name paragraph, the contact line first. */
  function DiagonalBlocks(c: Resume, p: Person): seq<Block>
  {
    DiagonalHeader(p) + DiagonalSummary(c) + DiagonalSkills(c) + DiagonalExperience(c) + DiagonalEducation(c)
  }

  /** `exp_content` of one diagonal entry: title, meta and spacer, then the arrow-bullet loop. */
  method DiagonalBoxContent(e: Experience) returns (content: seq<Block>)
    ensures content == DiagonalBox(e)
  {
    content := [Para(JobTitle, Show(e.title)), Para(Meta, DiagonalMeta(e)), Spacer(5)];
    content := AppendBullets(content, "\U{2192} ", e.achievements);
  }


  method AppendDiagonalSummary(elements: seq<Block>, c: Resume) returns (out: seq<Block>)
    ensures out == elements + DiagonalSummary(c)
  {
    out := elements;
    if Truthy(c.summary) {
      out := out + [Para(Heading, "PROFESSIONAL SUMMARY"), Para(Body, c.summary.value), Spacer(12)];
    }
  }

  method AppendDiagonalSkills(elements: seq<Block>, c: Resume) returns (out: seq<Block>)
    ensures out == elements + DiagonalSkills(c)
  {
    out := elements;
    if c.skills != [] {
      out := out + [Para(Heading, "TECHNICAL SKILLS"), Para(SkillLine, InlineSkills(c.skills)), Spacer(12)];
    }
  }

  method AppendDiagonalExperience(elements: seq<Block>, c: Resume) returns (out: seq<Block>)
    ensures out == elements + DiagonalExperience(c)
  {
    out := elements;
    if c.experience != [] {
      out := out + [Para(Heading, "EXPERIENCE")];
      out := AppendEach(out, DiagonalEntry, c.experience);
    }
  }

  method AppendDiagonalEducation(elements: seq<Block>, c: Resume) returns (out: seq<Block>)
    ensures out == elements + DiagonalEducation(c)
  {
    out := elements;
    if c.education != [] {
      out := out + [Para(Heading, "EDUCATION")];
      out := AppendEach(out, DiagonalDegree, c.education);
    }
  }

  /** `DiagonalHeaderTemplate.create_pdf` up to `doc.build`. */
  method BuildDiagonal(c: Resume, p: Person) returns (elements: seq<Block>)
    ensures elements == DiagonalBlocks(c, p)
  {
    elements := [Para(Contact, DiagonalContact(p))];
    ghost var built := DiagonalHeader(p);
    elements := AppendDiagonalSummary(elements, c);
    built := built + DiagonalSummary(c);
    assert elements == built;
    elements := AppendDiagonalSkills(elements, c);
    built := built + DiagonalSkills(c);
    assert elements == built;
    elements := AppendDiagonalExperience(elements, c);
    built := built + DiagonalExperience(c);
    assert elements == built;
    elements := AppendDiagonalEducation(elements, c);
    built := built + DiagonalEducation(c);
    assert elements == built;
  }

  /**
   * Each diagonal entry is one box and a spacer; the box holds title, meta,
   * spacer and one arrow bullet per achievement, in order.
   */
  lemma DiagonalEntryBullets(e: Experience)
    ensures |DiagonalBox(e)| == |e.achievements| + 3
    ensures ParasOf(Bullet, DiagonalBox(e)) == Marked("\U{2192} ", e.achievements)
  {
    var head := [Para(JobTitle, Show(e.title)), Para(Meta, DiagonalMeta(e)), Spacer(5)];
    BulletsAreItems("\U{2192} ", e.achievements);
    ParasOfNone(Bullet, head);
    ParasOfAppend(Bullet, head, Bullets("\U{2192} ", e.achievements));
  }

  lemma DiagonalHeaderRoles(p: Person)
    ensures ParasOf(Heading, DiagonalHeader(p)) == [] && ParasOf(Name, DiagonalHeader(p)) == []
  {
    ParasOfNone(Heading, DiagonalHeader(p));
    ParasOfNone(Name, DiagonalHeader(p));
  }

  lemma DiagonalSummaryRoles(c: Resume)
    ensures ParasOf(Heading, DiagonalSummary(c)) == Listed(Truthy(c.summary), "PROFESSIONAL SUMMARY")
    ensures ParasOf(Name, DiagonalSummary(c)) == []
  {
    if Truthy(c.summary) {
      ParasOfLead(Heading, DiagonalSummary(c));
    }
    ParasOfNone(Name, DiagonalSummary(c));
  }

  lemma DiagonalSkillsRoles(c: Resume)
    ensures ParasOf(Heading, DiagonalSkills(c)) == Listed(c.skills != [], "TECHNICAL SKILLS")
    ensures ParasOf(Name, DiagonalSkills(c)) == []
  {
    if c.skills != [] {
      ParasOfLead(Heading, DiagonalSkills(c));
    }
    ParasOfNone(Name, DiagonalSkills(c));
  }

  lemma DiagonalEntryRoles(e: Experience)
    ensures ParasOf(Heading, DiagonalEntry(e)) == [] && ParasOf(Name, DiagonalEntry(e)) == []
  {
    ParasOfNone(Heading, DiagonalEntry(e));
    ParasOfNone(Name, DiagonalEntry(e));
  }

  lemma DiagonalDegreeRoles(d: Education)
    ensures ParasOf(Heading, DiagonalDegree(d)) == [] && ParasOf(Name, DiagonalDegree(d)) == []
  {
    ParasOfNone(Heading, DiagonalDegree(d));
    ParasOfNone(Name, DiagonalDegree(d));
  }

  lemma DiagonalExperienceRoles(c: Resume)
    ensures ParasOf(Heading, DiagonalExperience(c)) == Listed(c.experience != [], "EXPERIENCE")
    ensures ParasOf(Name, DiagonalExperience(c)) == []
  {
    if c.experience != [] {
      forall i | 0 <= i < |c.experience|
        ensures ParasOf(Heading, DiagonalEntry(c.experience[i])) == []
        ensures ParasOf(Name, DiagonalEntry(c.experience[i])) == []
      {
        DiagonalEntryRoles(c.experience[i]);
      }
      HeadedList(Heading, [Para(Heading, "EXPERIENCE")], DiagonalEntry, c.experience);
      HeadedListNone(Name, [Para(Heading, "EXPERIENCE")], DiagonalEntry, c.experience);
    }
  }

  lemma DiagonalEducationRoles(c: Resume)
    ensures ParasOf(Heading, DiagonalEducation(c)) == Listed(c.education != [], "EDUCATION")
    ensures ParasOf(Name, DiagonalEducation(c)) == []
  {
    if c.education != [] {
      forall i | 0 <= i < |c.education|
        ensures ParasOf(Heading, DiagonalDegree(c.education[i])) == []
        ensures ParasOf(Name, DiagonalDegree(c.education[i])) == []
      {
        DiagonalDegreeRoles(c.education[i]);
      }
      HeadedList(Heading, [Para(Heading, "EDUCATION")], DiagonalDegree, c.education);
      HeadedListNone(Name, [Para(Heading, "EDUCATION")], DiagonalDegree, c.education);
    }
  }

  /** The diagonal design never emits a name paragraph: the contact line comes first. */
  lemma DiagonalHasNoName(c: Resume, p: Person)
    ensures ParasOf(Name, DiagonalBlocks(c, p)) == []
    ensures DiagonalBlocks(c, p)[0] == Para(Contact, DiagonalContact(p))
  {
    DiagonalHeaderRoles(p);
    DiagonalSummaryRoles(c);
    DiagonalSkillsRoles(c);
    DiagonalExperienceRoles(c);
    DiagonalEducationRoles(c);
    ParasOfSections(Name, DiagonalHeader(p), DiagonalSummary(c), DiagonalSkills(c), DiagonalExperience(c), DiagonalEducation(c),
      [], [], [], []);
  }

  /** The diagonal headings come in the fixed order, each exactly when its field is non-empty. */
  lemma DiagonalSectionOrder(c: Resume, p: Person)
    ensures ParasOf(Heading, DiagonalBlocks(c, p)) ==
      Listed(Truthy(c.summary), "PROFESSIONAL SUMMARY")
      + Listed(c.skills != [], "TECHNICAL SKILLS")
      + Listed(c.experience != [], "EXPERIENCE")
      + Listed(c.education != [], "EDUCATION")
  {
    DiagonalHeaderRoles(p);
    DiagonalSummaryRoles(c);
    DiagonalSkillsRoles(c);
    DiagonalExperienceRoles(c);
    DiagonalEducationRoles(c);
    ParasOfSections(Heading, DiagonalHeader(p), DiagonalSummary(c), DiagonalSkills(c), DiagonalExperience(c), DiagonalEducation(c),
      Listed(Truthy(c.summary), "PROFESSIONAL SUMMARY"), Listed(c.skills != [], "TECHNICAL SKILLS"),
      Listed(c.experience != [], "EXPERIENCE"), Listed(c.education != [], "EDUCATION"));
  }

  /** With no content the diagonal document is the contact line alone. */
  lemma DiagonalEmptyContent(c: Resume, p: Person)
    requires !Truthy(c.summary) && c.skills == [] && c.experience == [] && c.education == []
    ensures DiagonalBlocks(c, p) == [Para(Contact, DiagonalContact(p))]
  {
  }

  /**
   * The diagonal design lists the skills inline: the document holds exactly one
   * skills paragraph, the bold skills joined by " \U{2022} ", when there are
   * skills and none otherwise, and it holds no skill table at all.
   */
  lemma DiagonalSkillsInline(c: Resume, p: Person)
    ensures ParasOf(SkillLine, DiagonalBlocks(c, p)) == if c.skills == [] then [] else [InlineSkills(c.skills)]
    ensures NoGrid(DiagonalBlocks(c, p))
  {
    DiagonalSkillLines(c, p);
    DiagonalGridFree(c, p);
  }

  lemma DiagonalSkillLines(c: Resume, p: Person)
    ensures ParasOf(SkillLine, DiagonalBlocks(c, p)) == if c.skills == [] then [] else [InlineSkills(c.skills)]
  {
    var lines := if c.skills == [] then [] else [InlineSkills(c.skills)];
    ParasOfNone(SkillLine, DiagonalHeader(p));
    ParasOfNone(SkillLine, DiagonalSummary(c));
    DiagonalSkillsLine(c);
    DiagonalListsNoSkillLine(c);
    ParasOfSections(SkillLine, DiagonalHeader(p), DiagonalSummary(c), DiagonalSkills(c), DiagonalExperience(c),
      DiagonalEducation(c), [], lines, [], []);
    assert [] + lines + [] + [] == lines;
  }

  lemma DiagonalSkillsLine(c: Resume)
    ensures ParasOf(SkillLine, DiagonalSkills(c)) == if c.skills == [] then [] else [InlineSkills(c.skills)]
  {
    if c.skills != [] {
      var heading := [Para(Heading, "TECHNICAL SKILLS")];
      var rest := [Para(SkillLine, InlineSkills(c.skills)), Spacer(12)];
      assert DiagonalSkills(c) == heading + rest;
      ParasOfNone(SkillLine, heading);
      ParasOfLead(SkillLine, rest);
      ParasOfAppend(SkillLine, heading, rest);
    }
  }

  lemma DiagonalListsNoSkillLine(c: Resume)
    ensures ParasOf(SkillLine, DiagonalExperience(c)) == []
    ensures ParasOf(SkillLine, DiagonalEducation(c)) == []
  {
    DiagonalExperienceNoSkillLine(c);
    DiagonalEducationNoSkillLine(c);
  }

  lemma DiagonalExperienceNoSkillLine(c: Resume)
    ensures ParasOf(SkillLine, DiagonalExperience(c)) == []
  {
    if c.experience != [] {
      forall i | 0 <= i < |c.experience| ensures ParasOf(SkillLine, DiagonalEntry(c.experience[i])) == [] {
        ParasOfNone(SkillLine, DiagonalEntry(c.experience[i]));
      }
      HeadedListNone(SkillLine, [Para(Heading, "EXPERIENCE")], DiagonalEntry, c.experience);
    } else {
      ParasOfNone(SkillLine, []);
    }
  }

  lemma DiagonalEducationNoSkillLine(c: Resume)
    ensures ParasOf(SkillLine, DiagonalEducation(c)) == []
  {
    if c.education != [] {
      forall i | 0 <= i < |c.education| ensures ParasOf(SkillLine, DiagonalDegree(c.education[i])) == [] {
        ParasOfNone(SkillLine, DiagonalDegree(c.education[i]));
      }
      HeadedListNone(SkillLine, [Para(Heading, "EDUCATION")], DiagonalDegree, c.education);
    } else {
      ParasOfNone(SkillLine, []);
    }
  }

  lemma DiagonalGridFree(c: Resume, p: Person)
    ensures NoGrid(DiagonalBlocks(c, p))
  {
    var h, s, k, x, e := DiagonalHeader(p), DiagonalSummary(c), DiagonalSkills(c), DiagonalExperience(c),
      DiagonalEducation(c);
    assert NoGrid(h) && NoGrid(s) && NoGrid(k);
    DiagonalListsNoGrid(c);
    NoGridAppend(h, s);
    NoGridAppend(h + s, k);
    NoGridAppend(h + s + k, x);
    NoGridAppend(h + s + k + x, e);
  }

  lemma DiagonalListsNoGrid(c: Resume)
    ensures NoGrid(DiagonalExperience(c)) && NoGrid(DiagonalEducation(c))
  {
    var exps, degs := ConcatMap(DiagonalEntry, c.experience), ConcatMap(DiagonalDegree, c.education);
    forall i | 0 <= i < |c.experience| ensures NoGrid(DiagonalEntry(c.experience[i])) {
    }
    ConcatMapNoGrid(DiagonalEntry, c.experience);
    NoGridAppend([Para(Heading, "EXPERIENCE")], exps);
    forall i | 0 <= i < |c.education| ensures NoGrid(DiagonalDegree(c.education[i])) {
    }
    ConcatMapNoGrid(DiagonalDegree, c.education);
    NoGridAppend([Para(Heading, "EDUCATION")], degs);
  }

  // ----------------------------------------------------------------- circle

  const Ring := "\U{25C9}"

  /** A circle heading's text: the title between two ring bullets. */
  function CircleTitle(title: string): string
  {
    Ring + " " + title + " " + Ring
  }

  function CircleHeading(title: string): Block
  {
    Para(Heading, CircleTitle(title))
  }

  function CircleMeta(e: Experience): string
  {
    Show(e.company) + " | " + Show(e.period)
  }

  /** One circle work entry: diamond title, meta line, spacer, one bullet per achievement, spacer. */
  function CircleEntry(e: Experience): seq<Block>
  {
    [Para(JobTitle, "\U{25C6} " + Show(e.title)), Para(Meta, CircleMeta(e)), Spacer(5)]
    + Bullets(BulletMark, e.achievements) + [Spacer(10)]
  }

  function CircleDegreeLine(d: Education): string
  {
    "<b>" + Show(d.degree) + "</b> \U{2022} " + Show(d.institution) + " \U{2022} " + Show(d.year)
  }

  function CircleDegree(d: Education): seq<Block>
  {
    [Para(EducationLine, CircleDegreeLine(d)), Spacer(5)]
  }

  /** The circle design lists the contact values bare, separated by a circle. */
  function CircleContact(p: Person): string
  {
    ContactLine(p, "", "", "", " \U{25CF} ")
  }

  function CircleHeader(p: Person): seq<Block>
  {
    [Para(Name, NameText(p)), Para(Contact, CircleContact(p))]
  }

  function CircleProfile(c: Resume): seq<Block>
  {
    if Truthy(c.summary) then [CircleHeading("PROFESSIONAL PROFILE"), Boxed([Para(Body, c.summary.value)]), Spacer(15)] else []
  }

  function CircleExpertise(c: Resume): seq<Block>
  {
    if c.skills != [] then [CircleHeading("EXPERTISE"), Grid(CellRows(GridRows(c.skills, 4))), Spacer(15)] else []
  }

  function CircleExperience(c: Resume): seq<Block>
  {
    if c.experience != [] then [CircleHeading("EXPERIENCE")] + ConcatMap(CircleEntry, c.experience) else []
  }

  function CircleEducation(c: Resume): seq<Block>
  {
    if c.education != [] then [CircleHeading("EDUCATION")] + ConcatMap(CircleDegree, c.education) else []
  }

  /** The flowables of `CircleAccentTemplate.create_pdf`. */
  function CircleBlocks(c: Resume, p: Person): seq<Block>
  {
    CircleHeader(p) + CircleProfile(c) + CircleExpertise(c) + CircleExperience(c) + CircleEducation(c)
  }

  /**
   * The body of the circle experience loop: title, meta and spacer, the bullet loop,
   * a spacer. The loop around it is `AppendEach` with `CircleEntry`.
   */
  method AppendCircleEntry(elements: seq<Block>, e: Experience) returns (out: seq<Block>)
    ensures out == elements + CircleEntry(e)
  {
    out := elements + [Para(JobTitle, "\U{25C6} " + Show(e.title)), Para(Meta, CircleMeta(e)), Spacer(5)];
    out := AppendBullets(out, BulletMark, e.achievements);
    out := out + [Spacer(10)];
  }


  method AppendCircleProfile(elements: seq<Block>, c: Resume) returns (out: seq<Block>)
    ensures out == elements + CircleProfile(c)
  {
    out := elements;
    if Truthy(c.summary) {
      out := out + [CircleHeading("PROFESSIONAL PROFILE")];
      out := out + [Boxed([Para(Body, c.summary.value)]), Spacer(15)];
    }
  }

  method AppendCircleExpertise(elements: seq<Block>, c: Resume) returns (out: seq<Block>)
    ensures out == elements + CircleExpertise(c)
  {
    out := elements;
    if c.skills != [] {
      out := out + [CircleHeading("EXPERTISE")];
      var rows := SkillGrid(c.skills, 4);
      out := out + [Grid(rows), Spacer(15)];
    }
  }

  method AppendCircleExperience(elements: seq<Block>, c: Resume) returns (out: seq<Block>)
    ensures out == elements + CircleExperience(c)
  {
    out := elements;
    if c.experience != [] {
      out := out + [CircleHeading("EXPERIENCE")];
      out := AppendEach(out, CircleEntry, c.experience);
    }
  }

  method AppendCircleEducation(elements: seq<Block>, c: Resume) returns (out: seq<Block>)
    ensures out == elements + CircleEducation(c)
  {
    out := elements;
    if c.education != [] {
      out := out + [CircleHeading("EDUCATION")];
      out := AppendEach(out, CircleDegree, c.education);
    }
  }

  /** `CircleAccentTemplate.create_pdf` up to `doc.build`. */
  method BuildCircle(c: Resume, p: Person) returns (elements: seq<Block>)
    ensures elements == CircleBlocks(c, p)
  {
    elements := [Para(Name, NameText(p))];
    elements := elements + [Para(Contact, CircleContact(p))];
    ghost var built := CircleHeader(p);
    assert elements == built;
    elements := AppendCircleProfile(elements, c);
    built := built + CircleProfile(c);
    assert elements == built;
    elements := AppendCircleExpertise(elements, c);
    built := built + CircleExpertise(c);
    assert elements == built;
    elements := AppendCircleExperience(elements, c);
    built := built + CircleExperience(c);
    assert elements == built;
    elements := AppendCircleEducation(elements, c);
    built := built + CircleEducation(c);
    assert elements == built;
  }

  /** A circle work entry is title, meta, spacer, one bullet per achievement in order, spacer. */
  lemma CircleEntryShape(e: Experience)
    ensures |CircleEntry(e)| == |e.achievements| + 4
    ensures ParasOf(Bullet, CircleEntry(e)) == AchievementBullets(e)
    ensures ParasOf(Heading, CircleEntry(e)) == []
  {
    var head := [Para(JobTitle, "\U{25C6} " + Show(e.title)), Para(Meta, CircleMeta(e)), Spacer(5)];
    ParasOfNone(Bullet, head);
    ParasOfNone(Bullet, [Spacer(10)]);
    ParasOfNone(Heading, head);
    ParasOfNone(Heading, [Spacer(10)]);
    BulletedEntry(head, BulletMark, e.achievements, [Spacer(10)], Heading);
  }

  lemma CircleHeaderRoles(p: Person)
    ensures ParasOf(Heading, CircleHeader(p)) == [] && ParasOf(Bullet, CircleHeader(p)) == []
  {
    ParasOfNone(Heading, CircleHeader(p));
    ParasOfNone(Bullet, CircleHeader(p));
  }

  lemma CircleProfileRoles(c: Resume)
    ensures ParasOf(Heading, CircleProfile(c)) == Listed(Truthy(c.summary), CircleTitle("PROFESSIONAL PROFILE"))
    ensures ParasOf(Bullet, CircleProfile(c)) == []
  {
    if Truthy(c.summary) {
      ParasOfLead(Heading, CircleProfile(c));
    }
    ParasOfNone(Bullet, CircleProfile(c));
  }

  lemma CircleExpertiseRoles(c: Resume)
    ensures ParasOf(Heading, CircleExpertise(c)) == Listed(c.skills != [], CircleTitle("EXPERTISE"))
    ensures ParasOf(Bullet, CircleExpertise(c)) == []
  {
    if c.skills != [] {
      ParasOfLead(Heading, CircleExpertise(c));
    }
    ParasOfNone(Bullet, CircleExpertise(c));
  }

  lemma CircleExperienceRoles(c: Resume)
    ensures ParasOf(Heading, CircleExperience(c)) == Listed(c.experience != [], CircleTitle("EXPERIENCE"))
    ensures ParasOf(Bullet, CircleExperience(c)) == ConcatStrings(AchievementBullets, c.experience)
  {
    if c.experience != [] {
      var head := [CircleHeading("EXPERIENCE")];
      forall i | 0 <= i < |c.experience|
        ensures ParasOf(Heading, CircleEntry(c.experience[i])) == []
        ensures ParasOf(Bullet, CircleEntry(c.experience[i])) == AchievementBullets(c.experience[i])
      {
        CircleEntryShape(c.experience[i]);
      }
      HeadedList(Heading, head, CircleEntry, c.experience);
      HeadedListParas(Bullet, head, CircleEntry, AchievementBullets, c.experience);
    } else {
      ConcatStringsEmpty(AchievementBullets, c.experience);
    }
  }

  lemma CircleDegreeRoles(d: Education)
    ensures ParasOf(Heading, CircleDegree(d)) == [] && ParasOf(Bullet, CircleDegree(d)) == []
  {
    ParasOfNone(Heading, CircleDegree(d));
    ParasOfNone(Bullet, CircleDegree(d));
  }

  lemma CircleEducationRoles(c: Resume)
    ensures ParasOf(Heading, CircleEducation(c)) == Listed(c.education != [], CircleTitle("EDUCATION"))
    ensures ParasOf(Bullet, CircleEducation(c)) == []
  {
    if c.education != [] {
      var head := [CircleHeading("EDUCATION")];
      forall i | 0 <= i < |c.education|
        ensures ParasOf(Heading, CircleDegree(c.education[i])) == []
        ensures ParasOf(Bullet, CircleDegree(c.education[i])) == []
      {
        CircleDegreeRoles(c.education[i]);
      }
      HeadedList(Heading, head, CircleDegree, c.education);
      HeadedListNone(Bullet, head, CircleDegree, c.education);
    }
  }

  /** The circle headings come in the fixed order, each exactly when its field is non-empty. */
  lemma CircleSectionOrder(c: Resume, p: Person)
    ensures ParasOf(Heading, CircleBlocks(c, p)) ==
      Listed(Truthy(c.summary), CircleTitle("PROFESSIONAL PROFILE"))
      + Listed(c.skills != [], CircleTitle("EXPERTISE"))
      + Listed(c.experience != [], CircleTitle("EXPERIENCE"))
      + Listed(c.education != [], CircleTitle("EDUCATION"))
  {
    CircleHeaderRoles(p);
    CircleProfileRoles(c);
    CircleExpertiseRoles(c);
    CircleExperienceRoles(c);
    CircleEducationRoles(c);
    ParasOfSections(Heading, CircleHeader(p), CircleProfile(c), CircleExpertise(c), CircleExperience(c), CircleEducation(c),
      Listed(Truthy(c.summary), CircleTitle("PROFESSIONAL PROFILE")), Listed(c.skills != [], CircleTitle("EXPERTISE")),
      Listed(c.experience != [], CircleTitle("EXPERIENCE")), Listed(c.education != [], CircleTitle("EDUCATION")));
  }

  /** The circle document's bullets are every entry's achievements, marked, in order. */
  lemma CircleBullets(c: Resume, p: Person)
    ensures ParasOf(Bullet, CircleBlocks(c, p)) == ConcatStrings(AchievementBullets, c.experience)
  {
    CircleHeaderRoles(p);
    CircleProfileRoles(c);
    CircleExpertiseRoles(c);
    CircleExperienceRoles(c);
    CircleEducationRoles(c);
    ParasOfSections(Bullet, CircleHeader(p), CircleProfile(c), CircleExpertise(c), CircleExperience(c), CircleEducation(c),
      [], [], ConcatStrings(AchievementBullets, c.experience), []);
  }

  /** With no content the circle document is the name and the contact line. */
  lemma CircleEmptyContent(c: Resume, p: Person)
    requires !Truthy(c.summary) && c.skills == [] && c.experience == [] && c.education == []
    ensures CircleBlocks(c, p) == [Para(Name, NameText(p)), Para(Contact, CircleContact(p))]
  {
  }

  // --------------------------------------------------------------- dispatch

  /** What `create_unique_resume` hands to the chosen design: its kind, colour, fonts and flowables. */
  datatype Rendering = Rendering(kind: UniqueKind, accent: string, fonts: FontPair, blocks: seq<Block>)

  function UniqueBlocks(kind: UniqueKind, c: Resume, p: Person): seq<Block>
  {
    match kind
    case Sidebar => SidebarBlocks(c, p)
    case Diagonal => DiagonalBlocks(c, p)
    case Circle => CircleBlocks(c, p)
  }

  /**
   * `create_unique_resume`: look the colour up (blue by default), pick the design
   * by the template if-chain, and build that design's flowables with the font pair.
   */
  method CreateUniqueResume(c: Resume, p: Person, template: string, color: Option<string>, font: Option<string>)
    returns (r: Rendering)
    ensures r.kind == UniqueTemplate(template)
    ensures r.accent == AccentColor(color) && IsHexColor(r.accent)
    ensures r.fonts == Fonts(font)
    ensures r.blocks == UniqueBlocks(r.kind, c, p)
  {
    var hex := AccentColor(color);
    var blocks: seq<Block>;
    if template == "sidebar" {
      blocks := BuildSidebar(c, p);
      r := Rendering(Sidebar, hex, Fonts(font), blocks);
    } else if template == "diagonal" {
      blocks := BuildDiagonal(c, p);
      r := Rendering(Diagonal, hex, Fonts(font), blocks);
    } else if template == "circle" {
      blocks := BuildCircle(c, p);
      r := Rendering(Circle, hex, Fonts(font), blocks);
    } else {
      blocks := BuildSidebar(c, p);
      r := Rendering(Sidebar, hex, Fonts(font), blocks);
    }
  }
}
