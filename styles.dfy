/**
 * The style registry and the template selectors: colour names to hex values,
 * font names to (regular, bold) font pairs, and template names to template kinds.
 * Every lookup is total; an unknown or missing key falls back to a fixed default.
 */
module Styles {
  import opened Wrappers

  /** The sixteen accent colours offered by the sidebar, diagonal and circle templates. */
  const AccentColors: map<string, string> := map[
    "blue" := "#4A90E2",
    "indigo" := "#6366f1",
    "purple" := "#9333ea",
    "violet" := "#8b5cf6",
    "teal" := "#14b8a6",
    "emerald" := "#10b981",
    "green" := "#22c55e",
    "lime" := "#84cc16",
    "rose" := "#f43f5e",
    "pink" := "#ec4899",
    "red" := "#ef4444",
    "orange" := "#f97316",
    "amber" := "#f59e0b",
    "yellow" := "#eab308",
    "cyan" := "#06b6d4",
    "sky" := "#0ea5e9"
  ]

  /** The eight accent colours offered by the modern and visual templates. */
  const ComplexAccentColors: map<string, string> := map[
    "blue" := "#4A90E2",
    "indigo" := "#6366f1",
    "teal" := "#14b8a6",
    "emerald" := "#10b981",
    "violet" := "#8b5cf6",
    "rose" := "#f43f5e",
    "amber" := "#f59e0b",
    "cyan" := "#06b6d4"
  ]

  predicate IsHexDigit(c: char)
  {
    '0' <= c <= '9' || 'a' <= c <= 'f' || 'A' <= c <= 'F'
  }

  /** A colour ReportLab's HexColor accepts in the form the tables use: '#' and six hex digits. */
  predicate IsHexColor(s: string)
  {
    |s| == 7 && s[0] == '#' && forall i :: 1 <= i < 7 ==> IsHexDigit(s[i])
  }

  /**
   * `ACCENT_COLORS.get(color, ACCENT_COLORS['blue'])`: a known name gives its own
   * colour, anything else (None included) gives blue, and the result is always a
   * well-formed colour from the palette.
   */
  function AccentColor(name: Option<string>): (hex: string)
    ensures hex in AccentColors.Values && IsHexColor(hex)
    ensures name.Some? && name.value in AccentColors ==> hex == AccentColors[name.value]
    ensures !(name.Some? && name.value in AccentColors) ==> hex == "#4A90E2"
  {
    if name.Some? && name.value in AccentColors then AccentColors[name.value] else AccentColors["blue"]
  }

  /** Asking for blue gives the same colour as the fallback. */
  lemma BlueIsDefault()
    ensures AccentColor(Some("blue")) == AccentColor(None) == "#4A90E2"
  {
    assert "blue" in AccentColors;
  }

  /**
   * The complex templates' `ACCENT_COLORS.get(color, ACCENT_COLORS['blue'])` over
   * their eight names, with the same blue fallback.
   */
  function ComplexAccentColor(name: Option<string>): (hex: string)
    ensures hex in ComplexAccentColors.Values && IsHexColor(hex)
    ensures name.Some? && name.value in ComplexAccentColors ==> hex == ComplexAccentColors[name.value]
    ensures !(name.Some? && name.value in ComplexAccentColors) ==> hex == "#4A90E2"
  {
    if name.Some? && name.value in ComplexAccentColors then ComplexAccentColors[name.value]
    else ComplexAccentColors["blue"]
  }

  /** Every colour the complex templates know, the unique templates know by the same name and value. */
  lemma ComplexPaletteIsSubPalette(name: Option<string>)
    ensures name.Some? && name.value in ComplexAccentColors ==> name.value in AccentColors
    ensures ComplexAccentColor(name) == AccentColor(name) || !(name.Some? && name.value in ComplexAccentColors)
  {
  }

  /** A ReportLab standard font pair: the regular face and the bold face. */
  datatype FontPair = FontPair(regular: string, bold: string)

  const FontMap: map<string, FontPair> := map[
    "helvetica" := FontPair("Helvetica", "Helvetica-Bold"),
    "times" := FontPair("Times-Roman", "Times-Bold"),
    "courier" := FontPair("Courier", "Courier-Bold")
  ]

  /**
   * `FONT_MAP.get(font_family, FONT_MAP['helvetica'])`: the three known families
   * give their own pair, anything else (None included) gives Helvetica.
   */
  function Fonts(family: Option<string>): (f: FontPair)
    ensures f in FontMap.Values
    ensures family.Some? && family.value in FontMap ==> f == FontMap[family.value]
    ensures !(family.Some? && family.value in FontMap) ==> f == FontPair("Helvetica", "Helvetica-Bold")
  {
    if family.Some? && family.value in FontMap then FontMap[family.value] else FontMap["helvetica"]
  }

  /** The three designs of `resume_templates_unique.py`. */
  datatype UniqueKind = Sidebar | Diagonal | Circle

  /**
   * The if-chain of `create_unique_resume`: "diagonal" and "circle" pick their
   * own design and every other string picks the sidebar design.
   */
  function UniqueTemplate(template: string): (k: UniqueKind)
    ensures k == Diagonal <==> template == "diagonal"
    ensures k == Circle <==> template == "circle"
    ensures k == Sidebar <==> template != "diagonal" && template != "circle"
  {
    if template == "sidebar" then Sidebar
    else if template == "diagonal" then Diagonal
    else if template == "circle" then Circle
    else Sidebar
  }

  /** The two designs of `resume_templates_complex.py`. */
  datatype ComplexKind = Modern | Visual

  /** The if-chain of `create_complex_resume`: only "visual" picks the visual design. */
  function ComplexTemplate(template: string): (k: ComplexKind)
    ensures k == Visual <==> template == "visual"
  {
    if template == "modern" then Modern
    else if template == "visual" then Visual
    else Modern
  }

  /** `TEMPLATES.get(template_name, ModernTwoColumnTemplate)` */
  function GetTemplate(name: Option<string>): (k: ComplexKind)
    ensures k == Visual <==> name == Some("visual")
  {
    if name.Some? && name.value == "modern" then Modern
    else if name == Some("visual") then Visual
    else Modern
  }

  /** The registry lookup and the if-chain choose the same design for every name. */
  lemma RegistryAgreesWithDispatch(template: string)
    ensures GetTemplate(Some(template)) == ComplexTemplate(template)
  {
  }

  /**
   * The form's template names mapped to template types (the if-chain repeated in
   * `generate_resume`, `regenerate_resume` and `ResumeGenerator.create_pdf`):
   * the three form names map to their type, anything else (None included) to "sidebar".
   */
  function FormTemplateType(template: Option<string>): (t: string)
    ensures t == "diagonal" <==> template == Some("diagonal_header")
    ensures t == "circle" <==> template == Some("circle_accent")
    ensures t == "sidebar" <==> template != Some("diagonal_header") && template != Some("circle_accent")
  {
    if template == Some("sidebar_accent") then "sidebar"
    else if template == Some("diagonal_header") then "diagonal"
    else if template == Some("circle_accent") then "circle"
    else "sidebar"
  }

  /** Whatever the form sends, the chosen type names one of the three unique designs exactly. */
  lemma FormTemplateSelectsDesign(template: Option<string>)
    ensures UniqueTemplate(FormTemplateType(template)) ==
      if template == Some("diagonal_header") then Diagonal
      else if template == Some("circle_accent") then Circle
      else Sidebar
  {
  }
}
