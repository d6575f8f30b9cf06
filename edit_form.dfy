/**
 * The form handling of the web app: the settings `generate_resume` reads from
 * the submitted form, and the resume `regenerate_resume` rebuilds from the
 * editor's fields. The submitted form is a map from field names to strings;
 * the clock's timestamp is a parameter.
 */
module EditForm {
  import opened Wrappers
  import opened Seqs
  import opened Text
  import opened Content
  import opened Styles
  import opened UniqueTemplates
  import opened FormLists

  type Form = map<string, string>

  /** `request.form.get(key)`: the value, or None when the field was not sent. */
  function Lookup(form: Form, key: string): Option<string>
  {
    if key in form then Some(form[key]) else None
  }

  /** `request.form.get(key, default)` */
  function LookupOr(form: Form, key: string, default: string): string
  {
    if key in form then form[key] else default
  }

  /**
   * An entry field rebuilt from `request.form.get(key)`: the text when the field
   * was sent, else the None the template later prints as "None".
   */
  function EntryField(form: Form, key: string): Field
  {
    if key in form then Str(form[key]) else Null
  }

  // ------------------------------------------------------- indexed entries

  /** The field name `f'{prefix}{i}'`, such as exp_title_3. */
  function IndexedKey(prefix: string, i: nat): string
  {
    prefix + NatToString(i)
  }

  lemma IndexedKeyInjective(prefix: string, i: nat, j: nat)
    requires IndexedKey(prefix, i) == IndexedKey(prefix, j)
    ensures i == j
  {
    assert IndexedKey(prefix, i)[|prefix|..] == NatToString(i);
    assert IndexedKey(prefix, j)[|prefix|..] == NatToString(j);
    NatToStringInjective(i, j);
  }

  lemma {:induction false} IndexedKeysCount(prefix: string, n: nat)
    ensures |set j | 0 <= j < n :: IndexedKey(prefix, j)| == n
  {
    if n > 0 {
      var before := set j | 0 <= j < n - 1 :: IndexedKey(prefix, j);
      var all := set j | 0 <= j < n :: IndexedKey(prefix, j);
      IndexedKeysCount(prefix, n - 1);
      assert all == before + {IndexedKey(prefix, n - 1)};
      assert IndexedKey(prefix, n - 1) !in before by {
        if IndexedKey(prefix, n - 1) in before {
          var j :| 0 <= j < n - 1 && IndexedKey(prefix, j) == IndexedKey(prefix, n - 1);
          IndexedKeyInjective(prefix, j, n - 1);
        }
      }
    }
  }

  /** The form holds at least as many fields as a run of distinct indexed keys it contains. */
  lemma IndexedKeysBound(form: Form, prefix: string, n: nat)
    requires forall j :: 0 <= j < n ==> IndexedKey(prefix, j) in form
    ensures n <= |form.Keys|
  {
    var keys := set j | 0 <= j < n :: IndexedKey(prefix, j);
    IndexedKeysCount(prefix, n);
    assert keys <= form.Keys;
    assert form.Keys == keys + (form.Keys - keys);
    assert keys * (form.Keys - keys) == {};
  }

  /** A run of present keys ended by an absent one has only one possible length: the first gap. */
  lemma FirstGapUnique(form: Form, prefix: string, n: nat, m: nat)
    requires forall j :: 0 <= j < n ==> IndexedKey(prefix, j) in form
    requires IndexedKey(prefix, n) !in form
    requires forall j :: 0 <= j < m ==> IndexedKey(prefix, j) in form
    requires IndexedKey(prefix, m) !in form
    ensures n == m
  {
  }

  /** The experience entry the editor sent under index `i`. */
  function ExperienceAt(form: Form, i: nat): Experience
  {
    Experience(
      EntryField(form, IndexedKey("exp_title_", i)),
      EntryField(form, IndexedKey("exp_company_", i)),
      EntryField(form, IndexedKey("exp_period_", i)),
      ParseAchievements(LookupOr(form, IndexedKey("exp_achievements_", i), "")))
  }

  /** The education entry the editor sent under index `i`. */
  function EducationAt(form: Form, i: nat): Education
  {
    Education(
      EntryField(form, IndexedKey("edu_degree_", i)),
      EntryField(form, IndexedKey("edu_institution_", i)),
      EntryField(form, IndexedKey("edu_year_", i)))
  }

  /**
   * The experience loop: while exp_title_i was sent, rebuild entry i. The result
   * holds one entry per index of the run exp_title_0, exp_title_1, ... up to the
   * first missing index, in index order; later indices are never read.
   */
  method ParseExperience(form: Form) returns (entries: seq<Experience>)
    ensures forall j :: 0 <= j < |entries| ==> IndexedKey("exp_title_", j) in form
    ensures IndexedKey("exp_title_", |entries|) !in form
    ensures forall j :: 0 <= j < |entries| ==> entries[j] == ExperienceAt(form, j)
  {
    entries := [];
    var i := 0;
    while IndexedKey("exp_title_", i) in form
      invariant i == |entries|
      invariant forall j :: 0 <= j < i ==> IndexedKey("exp_title_", j) in form
      invariant forall j :: 0 <= j < i ==> entries[j] == ExperienceAt(form, j)
      decreases |form.Keys| - i
    {
      IndexedKeysBound(form, "exp_title_", i + 1);
      var achievements := ParseAchievements(LookupOr(form, IndexedKey("exp_achievements_", i), ""));
      var entry := Experience(
        EntryField(form, IndexedKey("exp_title_", i)),
        EntryField(form, IndexedKey("exp_company_", i)),
        EntryField(form, IndexedKey("exp_period_", i)),
        achievements);
      assert entry == ExperienceAt(form, i);
      entries := entries + [entry];
      i := i + 1;
    }
  }

  /** The education loop: the same contiguous-index rule on edu_degree_i. */
  method ParseEducation(form: Form) returns (entries: seq<Education>)
    ensures forall j :: 0 <= j < |entries| ==> IndexedKey("edu_degree_", j) in form
    ensures IndexedKey("edu_degree_", |entries|) !in form
    ensures forall j :: 0 <= j < |entries| ==> entries[j] == EducationAt(form, j)
  {
    entries := [];
    var i := 0;
    while IndexedKey("edu_degree_", i) in form
      invariant i == |entries|
      invariant forall j :: 0 <= j < i ==> IndexedKey("edu_degree_", j) in form
      invariant forall j :: 0 <= j < i ==> entries[j] == EducationAt(form, j)
      decreases |form.Keys| - i
    {
      IndexedKeysBound(form, "edu_degree_", i + 1);
      entries := entries + [Education(
        EntryField(form, IndexedKey("edu_degree_", i)),
        EntryField(form, IndexedKey("edu_institution_", i)),
        EntryField(form, IndexedKey("edu_year_", i)))];
      i := i + 1;
    }
  }

  // ------------------------------------------------------- settings

  /** `f"resume_{name.replace(' ', '_')}_{timestamp}.pdf"` */
  function Filename(name: string, timestamp: string): string
  {
    "resume_" + ReplaceChar(name, ' ', '_') + "_" + timestamp + ".pdf"
  }

  /**
   * The filename starts with "resume_", ends with ".pdf", carries the name with
   * its spaces turned into underscores, and holds no space unless the timestamp does.
   */
  lemma FilenameShape(name: string, timestamp: string)
    ensures var f := Filename(name, timestamp);
      && |f| == |name| + |timestamp| + 12
      && f[..7] == "resume_" && f[|f| - 4..] == ".pdf"
      && f[7..7 + |name|] == ReplaceChar(name, ' ', '_')
      && f[7 + |name|] == '_'
      && f[8 + |name|..8 + |name| + |timestamp|] == timestamp
    ensures ' ' !in timestamp ==> ' ' !in Filename(name, timestamp)
  {
    var f := Filename(name, timestamp);
    var r := ReplaceChar(name, ' ', '_');
    assert f == "resume_" + r + "_" + timestamp + ".pdf";
    if ' ' !in timestamp {
      forall k | 0 <= k < |f| ensures f[k] != ' ' {
        if k < 7 {
        } else if k < 7 + |r| {
          assert f[k] == r[k - 7];
        } else if k == 7 + |r| {
        } else if k < 8 + |r| + |timestamp| {
          assert f[k] == timestamp[k - 8 - |r|];
        } else {
          assert f[k] == ".pdf"[k - 8 - |r| - |timestamp|];
        }
      }
    }
  }

  /** `color_scheme if color_scheme else 'blue'` over `request.form.get('color_scheme', 'blue')`. */
  function GenerateColor(form: Form): (color: string)
    ensures color != ""
    ensures color == "blue" <==> !("color_scheme" in form) || form["color_scheme"] in {"", "blue"}
    ensures color != "blue" ==> color == form["color_scheme"]
  {
    var scheme := LookupOr(form, "color_scheme", "blue");
    if scheme != "" then scheme else "blue"
  }

  /** What `generate_resume` passes on from the form after validating it. */
  datatype Settings = Settings(templateType: string, color: string, font: string, filename: string)

  /**
   * The form half of `generate_resume`: job description, name and an API key
   * (the form's or the environment's) are required and must be non-empty;
   * then the template type, colour, font and filename are derived.
   */
  function GenerateSettings(form: Form, envKey: Option<string>, timestamp: string): (r: Result<Settings>)
    ensures r.Ok? <==>
      Truthy(Lookup(form, "job_description")) && Truthy(Lookup(form, "name"))
      && (Truthy(Lookup(form, "api_key")) || Truthy(envKey))
    ensures r.Ok? ==>
      && r.value.templateType == FormTemplateType(Some(LookupOr(form, "template", "sidebar_accent")))
      && r.value.color == GenerateColor(form)
      && r.value.font == LookupOr(form, "font_family", "helvetica")
      && r.value.filename == Filename(form["name"], timestamp)
  {
    var apiKey := if Truthy(Lookup(form, "api_key")) then Lookup(form, "api_key") else envKey;
    if !Truthy(Lookup(form, "job_description")) || !Truthy(Lookup(form, "name")) || !Truthy(apiKey) then
      Err("Please fill in all required fields (Job Description, Name, and API Key)")
    else
      Ok(Settings(
        FormTemplateType(Some(LookupOr(form, "template", "sidebar_accent"))),
        GenerateColor(form),
        LookupOr(form, "font_family", "helvetica"),
        Filename(form["name"], timestamp)))
  }

  /** A blank colour choice falls back to blue, which both palettes know. */
  lemma BlankColorIsBlue(form: Form)
    requires "color_scheme" in form && form["color_scheme"] == ""
    ensures AccentColor(Some(GenerateColor(form))) == "#4A90E2"
  {
  }

  // ------------------------------------------------------- regenerate

  /** The contact details as `regenerate_resume` reads them: None for every field not sent. */
  function EditedPerson(form: Form): Person
  {
    Person(Lookup(form, "name"), Lookup(form, "email"), Lookup(form, "phone"), Lookup(form, "location"))
  }

  /** What `regenerate_resume` rebuilds, the file it names and what it renders. */
  datatype Regenerated = Regenerated(filename: string, resume: Resume, rendering: Rendering)

  /**
   * `regenerate_resume`: rebuild the resume from the editor's fields, name the
   * file, map the template name and render with the submitted colour and font
   * (blue and Helvetica when they were not sent). Without a name the filename
   * cannot be built and the request fails.
   */
  method Regenerate(form: Form, timestamp: string) returns (r: Result<Regenerated>)
    ensures r.Ok? <==> "name" in form
    ensures r.Ok? ==> r.value.filename == Filename(form["name"], timestamp)
    ensures r.Ok? ==> r.value.rendering.kind == UniqueTemplate(FormTemplateType(Lookup(form, "template")))
    ensures r.Ok? ==> r.value.rendering.accent == AccentColor(Lookup(form, "color_scheme"))
    ensures r.Ok? ==> r.value.rendering.fonts == Fonts(Lookup(form, "font_family"))
    ensures r.Ok? ==> r.value.rendering.blocks == UniqueBlocks(r.value.rendering.kind, r.value.resume, EditedPerson(form))
    ensures r.Ok? ==> var c := r.value.resume;
      && c.summary == Lookup(form, "summary")
      && c.skills == ParseSkills(LookupOr(form, "skills", ""))
      && IndexedKey("exp_title_", |c.experience|) !in form
      && (forall j :: 0 <= j < |c.experience| ==> IndexedKey("exp_title_", j) in form && c.experience[j] == ExperienceAt(form, j))
      && IndexedKey("edu_degree_", |c.education|) !in form
      && (forall j :: 0 <= j < |c.education| ==> IndexedKey("edu_degree_", j) in form && c.education[j] == EducationAt(form, j))
  {
    var person := EditedPerson(form);
    var skills := ParseSkills(LookupOr(form, "skills", ""));
    var experience := ParseExperience(form);
    var education := ParseEducation(form);
    var resume := Resume(Lookup(form, "summary"), skills, experience, education);
    if "name" !in form {
      return Err("'NoneType' object has no attribute 'replace'");
    }
    var filename := Filename(form["name"], timestamp);
    var templateType := FormTemplateType(Lookup(form, "template"));
    var rendering := CreateUniqueResume(resume, person, templateType,
      Lookup(form, "color_scheme"), Lookup(form, "font_family"));
    r := Ok(Regenerated(filename, resume, rendering));
  }
}
