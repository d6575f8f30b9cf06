# Resume generator: layout and form logic

This project models the deterministic core of a resume generator. The
generator asks a language model for resume content as JSON, then renders it
with ReportLab as one of five PDF designs. The model covers:

- the style lookups: 16 accent colours, 8 for the complex designs, three font
  families, and the template names of the web form and of the unique and
  complex renderers;
- the three "unique" designs (sidebar, diagonal header, circle), each as a
  function from the resume record to an ordered sequence of layout blocks, plus
  the `elements.append` loop that builds that sequence, proved equal to it;
- the two "complex" designs (modern two-column, visual block), in the same way;
- the skill grids (3 and 4 columns, row-major, blank-padded) and the modern
  design's two-column skill split;
- the canvas that buffers every page on `showPage` and decorates each of them
  once on `save`. It is a class whose methods update its fields;
- where the sidebar band and the diagonal banner sit, in whole tenths of an
  inch;
- the web form handling:
  - comma-separated skills and line-per-achievement text areas;
  - the scan over indexed `exp_title_i` / `edu_degree_i` keys;
  - the output filename;
  - the colour default and the validation of `generate_resume`;
  - `regenerate_resume` end to end;
- the stripping of Markdown code fences from the model's reply before JSON
  parsing, and the command-line generator's `create_pdf`.

A ReportLab flowable becomes a `Layout.Block`: a paragraph with its role
(name, heading, bullet, …), a spacer, a rule, a grid of cells, a boxed group
or a two-column row. Field values that the source prints with
`entry.get(key, '')` are three-state (missing, None, text), because Python
prints a stored None as the word "None".

The `"```json"` branch of the fence stripping is stated exactly by
`Reply.JsonFencedReply`: the result is the stripped text between the opening
fence and the next `"```json"`, cut again at its first `"```"`. Because the
inner split looks for `"```json"` rather than `"```"`, a run of backquotes can
leave one behind: `Reply.OverlappingFences` shows that "```json`" followed by
"```json" gives "`".

## Model

| member | source | states |
|---|---|---|
| Styles.AccentColor | resume_templates_unique.py:546-568 | every one of the 16 names gives its own hex colour; any other name, or none, gives `#4A90E2`; the result is always a `#` plus six hex digits from the palette |
| Styles.BlueIsDefault | resume_templates_unique.py:568 | asking for blue and asking for nothing give the same colour `#4A90E2` |
| Styles.ComplexAccentColor | resume_templates_complex.py:396-410 | the 8-name palette gives each listed name's colour and `#4A90E2` for anything else |
| Styles.ComplexPaletteIsSubPalette | resume_templates_complex.py:396-405 | every complex colour name is also a unique colour name and maps to the same hex value |
| Styles.Fonts | resume_templates_unique.py:24-30 | helvetica, times and courier give their (regular, bold) pair; anything else gives (Helvetica, Helvetica-Bold) |
| Styles.UniqueTemplate | resume_templates_unique.py:571-578 | "diagonal" selects Diagonal and "circle" selects Circle (both iff); every other string selects Sidebar |
| Styles.ComplexTemplate | resume_templates_complex.py:408-417 | exactly "visual" selects Visual; everything else selects Modern |
| Styles.GetTemplate | resume_templates_complex.py:427-429 | the registry lookup gives Visual iff the name is "visual", otherwise Modern |
| Styles.RegistryAgreesWithDispatch | resume_templates_complex.py:421-429 | `get_template` and `create_complex_resume` choose the same design for every name |
| Styles.FormTemplateType | app.py:79-86 | sidebar_accent, diagonal_header and circle_accent map to sidebar, diagonal and circle (each iff); anything else, including none, maps to sidebar |
| Styles.FormTemplateSelectsDesign | app.py:79-88 | the form name, mapped and then dispatched, selects the design it names and Sidebar for anything else |
| Layout.ContactLineShape | resume_templates_unique.py:116-124 | one part per present field, in the order email, phone, location; no fields gives the empty line; one field gives it with no separator; two give them in order around one separator; three give all three joined by the separator |
| Layout.PadColumn | resume_templates_complex.py:133-137 | the padding loop gives the column followed by exactly the missing number of blanks |
| Layout.GridShape | resume_templates_unique.py:156-160 | a k-column grid of n skills has ceil(n/k) rows of exactly k cells |
| Layout.GridReadsInOrder | resume_templates_unique.py:156-160 | read row by row, the grid is the skills in order followed by (k - n mod k) mod k blanks |
| Layout.SkillGrid | resume_templates_unique.py:155-160 | the row loop builds exactly the grid of cells, with ceil(n/k) rows of k cells each |
| Layout.BalanceColumns | resume_templates_complex.py:129-137 | the left column holds the first (n+1)//2 skills and the right the remaining n//2 plus one blank exactly when n is odd; both have length ceil(n/2); the left column followed by the unpadded right column is the input |
| Layout.TwoColumnRows | resume_templates_complex.py:139-145 | the row loop builds the pairs of bullet cells |
| Layout.SkillPairsReadInOrder | resume_templates_complex.py:129-145 | every row has two cells; reading the left column and then the right gives every skill as a bullet cell, in order, then one blank cell when n is odd |
| Layout.BulletsAreItems | resume_templates_unique.py:194-196 | one bullet paragraph per achievement, in order, each the marker followed by the achievement |
| Layout.AppendEach | resume_templates_unique.py:185-198 | the for-loop over entries appends each entry's blocks, in order, after the existing elements |
| Layout.AppendBullets | resume_templates_unique.py:194-196 | the achievement loop appends exactly the bullets |
| UniqueTemplates.BuildSidebar | resume_templates_unique.py:112-215 | the sidebar builder's appends produce exactly the sidebar block sequence |
| UniqueTemplates.AppendSidebarExpertise | resume_templates_unique.py:143-172 | the skills section is the heading, rule, 3-column grid and spacer, or nothing when there are no skills |
| UniqueTemplates.AppendSidebarExperience | resume_templates_unique.py:175-198 | the experience section is the heading and rule followed by every entry, or nothing |
| UniqueTemplates.SidebarEntryShape | resume_templates_unique.py:190-198 | an entry is the title, meta line, spacer, one bullet per achievement and a closing spacer: m + 4 blocks |
| UniqueTemplates.SidebarSectionOrder | resume_templates_unique.py:127-215 | the headings are profile, expertise, experience and education, in that order, each present exactly when its field is non-empty |
| UniqueTemplates.SidebarBullets | resume_templates_unique.py:185-198 | the document's bullets are every achievement of every entry, in order |
| UniqueTemplates.SidebarEmptyContent | resume_templates_unique.py:112-215 | with no summary, skills, experience or education, only the name and the contact line remain |
| UniqueTemplates.BuildDiagonal | resume_templates_unique.py:312-378 | the diagonal builder's appends produce exactly the diagonal block sequence |
| UniqueTemplates.DiagonalHasNoName | resume_templates_unique.py:280-322 | the diagonal design emits no name paragraph at all; its first block is the contact line |
| UniqueTemplates.DiagonalSkillsInline | resume_templates_unique.py:331-337 | the whole diagonal document holds exactly one skills paragraph, the bold skill names joined by " • ", when there are skills and none otherwise; the design contains no grid at all |
| UniqueTemplates.DiagonalEntryBullets | resume_templates_unique.py:343-355 | each experience box holds m + 3 blocks and one arrow bullet per achievement, in order |
| UniqueTemplates.DiagonalSectionOrder | resume_templates_unique.py:324-378 | summary, skills, experience and education headings, in order, each present exactly when its field is non-empty |
| UniqueTemplates.DiagonalEmptyContent | resume_templates_unique.py:312-378 | with empty content only the contact line remains |
| UniqueTemplates.BuildCircle | resume_templates_unique.py:450-540 | the circle builder's appends produce exactly the circle block sequence |
| UniqueTemplates.AppendCircleExpertise | resume_templates_unique.py:493-513 | the skills section is the heading, the 4-column grid and a spacer, or nothing |
| UniqueTemplates.CircleEntryShape | resume_templates_unique.py:519-530 | an entry is m + 4 blocks whose bullets are the achievements, in order |
| UniqueTemplates.CircleSectionOrder | resume_templates_unique.py:477-540 | profile, expertise, experience and education headings, in order, each present exactly when non-empty |
| UniqueTemplates.CircleBullets | resume_templates_unique.py:516-530 | the bullets are every achievement of every entry, in order |
| UniqueTemplates.CircleEmptyContent | resume_templates_unique.py:450-540 | with empty content only the name and contact line remain |
| UniqueTemplates.CreateUniqueResume | resume_templates_unique.py:566-578 | the rendering uses the dispatched design, the looked-up accent (always a hex colour), the looked-up fonts, and that design's blocks |
| ComplexTemplates.BuildModern | resume_templates_complex.py:76-227 | the modern builder's appends produce exactly the modern block sequence |
| ComplexTemplates.MakeModernEntry | resume_templates_complex.py:174-203 | each work-history entry is built as one two-column row and a spacer |
| ComplexTemplates.ModernEntryShape | resume_templates_complex.py:181-203 | the row's left cell is the dates/title/company paragraph and the right cell holds one bullet per achievement, in order |
| ComplexTemplates.ModernBarOrder | resume_templates_complex.py:91-227 | the summary bar is always there, followed by skills, work history and education bars, each present exactly when non-empty |
| ComplexTemplates.ModernSkillTable | resume_templates_complex.py:110-156 | the skills table is the two-column pair grid, and its columns read the skills in order |
| ComplexTemplates.ModernEmptyContent | resume_templates_complex.py:76-107 | with no content the summary bar and an empty summary paragraph are still emitted |
| ComplexTemplates.BuildVisual | resume_templates_complex.py:268-390 | the visual builder's appends produce exactly the visual block sequence |
| ComplexTemplates.MakeVisualBox | resume_templates_complex.py:356-379 | each experience box is built from its title, meta, spacer and bullets |
| ComplexTemplates.VisualEntryShape | resume_templates_complex.py:356-379 | an entry is a box of m + 3 blocks and a spacer; the bullets are the achievements, in order |
| ComplexTemplates.VisualProfileTable | resume_templates_complex.py:310-323 | the profile box is always emitted, holding the summary text |
| ComplexTemplates.VisualNameBanner | resume_templates_complex.py:268-279 | the name banner comes first and is the only banner |
| ComplexTemplates.VisualSectionOrder | resume_templates_complex.py:326-390 | expertise, experience and education headings, in order, each present exactly when non-empty |
| ComplexTemplates.VisualEmptyContent | resume_templates_complex.py:268-390 | with no lists, only the header and the profile remain |
| ComplexTemplates.CreateComplexResume | resume_templates_complex.py:408-417 | Visual iff the template is "visual"; the accent from the 8-name palette; that design's blocks |
| PageBuffer.DecoratedOnce | resume_templates_unique.py:41-46 | every buffered page comes out once, in order, as its own content followed by exactly one decoration |
| PageBuffer.DecoratedAppend | resume_templates_unique.py:43-46 | decorating is page by page: decorating two runs of pages is decorating each |
| PageBuffer.DecoratingCanvas.constructor | resume_templates_unique.py:33-35 | a new canvas has an empty current page, no buffered pages and no output |
| PageBuffer.DecoratingCanvas.Draw | resume_templates_unique.py:32-47 | drawing adds to the current page only |
| PageBuffer.DecoratingCanvas.ShowPage | resume_templates_unique.py:37-39 | the current page is appended to the buffer and a fresh page is started; nothing is output |
| PageBuffer.DecoratingCanvas.Save | resume_templates_unique.py:41-47 | the output gains every buffered page, in order, each decorated once with the canvas's design and accent; the buffer is left as it was and the canvas stays valid (every page plain) |
| PageBuffer.ThreePages | resume_templates_unique.py:37-47 | three pages shown and saved come out decorated in the order shown |
| Geometry.SidebarBandInMargin | resume_templates_unique.py:52-67 | the 1.5 inch band spans the page height and ends 0.3 inch before the 1.8 inch left margin |
| Geometry.DiagonalBannerInMargin | resume_templates_unique.py:257-274 | the banner's lowest corner is 1.5 inch below the top edge, inside the 1.8 inch top margin, and every corner lies within the page width |
| FormLists.ParsedSkillsClean | app.py:158 | no parsed skill is empty or has surrounding whitespace, and there are no more skills than comma-separated pieces |
| FormLists.SkillsRoundTrip | app.py:158 | any list of non-empty, trimmed, comma-free skills, the empty list included, joined with ", " parses back to the same list in the same order |
| FormLists.EmptyFieldParsesEmpty | app.py:158 | an empty text field parses to no items, whatever the separator |
| FormLists.JoinSpaced | app.py:158 | joining with ", " is joining with "," the pieces that carry the leading space |
| FormLists.AchievementsCrLf | app.py:166-167 | any list of lines, the empty list included, joined with "\r\n" parses to the stripped, non-blank lines in order, with no '\r' left in any of them |
| EditForm.IndexedKeysCount | app.py:165 | the keys prefix0 … prefix(n-1) are n distinct keys |
| EditForm.IndexedKeysBound | app.py:164-175 | a contiguous run of present indexed keys is no longer than the form |
| EditForm.FirstGapUnique | app.py:164-175 | the length of the contiguous run of present keys is determined by the form |
| EditForm.ParseExperience | app.py:163-175 | the entries are one per key exp_title_0, exp_title_1, … up to the first missing index, each read from its own indexed fields with achievements parsed line by line |
| EditForm.ParseEducation | app.py:177-185 | the same contiguous-index rule on edu_degree_i |
| EditForm.FilenameShape | app.py:71 | the filename is "resume_", the name with spaces turned into '_', '_', the timestamp and ".pdf"; it has no space when the timestamp has none |
| EditForm.GenerateColor | app.py:43-76 | the colour is "blue" exactly when the colour scheme is missing, empty or "blue", and otherwise the submitted scheme |
| EditForm.BlankColorIsBlue | app.py:76 | a blank colour scheme renders in `#4A90E2` |
| EditForm.GenerateSettings | app.py:32-88 | the request proceeds iff job description, name and an API key (from the form or the environment) are non-empty; the template, colour, font and filename are then those the form selects |
| EditForm.Regenerate | app.py:138-204 | it succeeds iff a name is sent; the filename, the mapped template, the colour and font as sent, the rebuilt resume (summary, parsed skills, contiguous experience and education entries) and its blocks |
| Reply.StripFences | resume_generator.py:94-101 | the text handed to the JSON parser never starts or ends with whitespace, and taking its pieces never fails |
| Reply.JsonFencedReply | resume_generator.py:98-99 | after "```json", the result is exactly the text up to the next "```json" (or the end), cut at its first "```" (or its end), then stripped |
| Reply.JsonFencedCut | resume_generator.py:98-99 | after "```json", the result is the stripped text up to some cut that is a "```" or the end, with no "```" before the cut |
| Reply.OverlappingFences | resume_generator.py:98-99 | "```json`" + "```json" + x gives "`" for every x not ending in whitespace: the backquote left between two overlapping fences survives |
| Reply.PlainFencedReply | resume_generator.py:100-101 | after a plain "```", the result is the stripped text up to the next "```", or to the end when there is none |
| Reply.UnfencedReply | resume_generator.py:94-101 | a reply with no fence is only stripped |
| Reply.FenceRoundTrip | resume_generator.py:98-99 | for a text without "```", wrapping it as "```json\n" + x + "\n```" and stripping gives strip(x) |
| Reply.GeneratorTemplateType | resume_generator.py:123-130 | the command-line mapping is the same as the web form's |
| Reply.CreatePdf | resume_generator.py:110-134 | the design follows the template name (sidebar for anything unknown), always in blue and Helvetica, with that design's blocks |
| Text.StripPadding | app.py:158 | stripping ignores any whitespace added around a text |
| Text.JoinSplit | app.py:158 | joining the split pieces with the separator gives the text back |
| Text.SplitJoinChar | app.py:158 | splitting at a character that no piece contains undoes joining with it |
| Text.NatToStringInjective | app.py:165 | distinct indices give distinct decimal strings, so the indexed keys differ |
| Text.ReplaceChar | app.py:71 | same length; each occurrence of the replaced character, and only those, is changed |
| Text.Upper | resume_templates_unique.py:113 | same length; every lower-case ASCII letter becomes its capital (code minus 32) and every other character is kept |
| Text.UpperIdempotent | resume_templates_unique.py:113 | upper-casing twice is upper-casing once |
| Text.UpperFixed | resume_templates_unique.py:113 | a text is left unchanged exactly when it has no lower-case ASCII letter |

## Left out

- Drawing and styling: ReportLab paragraph and table styles, font sizes, colours of text and borders, `SimpleDocTemplate.build`'s reflow and pagination, and the canvas drawing primitives. Blocks stand for flowables; a page is an opaque list of drawing operations.
- The circle design's art (resume_templates_unique.py:415-427): no claim is made about where its circles sit; its top-left circle overlaps the text frame.
- Painting order on a page: only "decorated once, after the page's own content" is stated.
- The language-model call, the prompt text and `json.loads` (resume_generator.py:19-108): network and a foreign parser. The reply text is a parameter of `Reply.StripFences`.
- The code after the early `return` in the generator's `create_pdf` (resume_generator.py:138-241), which never runs, and the interactive `main` loop (resume_generator.py:244-303), which reads standard input.
- Flask routing, the session, flash messages, redirects, downloads and directory creation in app.py. The error paths are `Err` results with the failing reason.
- `datetime.now()`: the timestamp is a parameter. The `OPENAI_API_KEY` environment variable is the `envKey` parameter of `EditForm.GenerateSettings`.
- Text.Upper: upper-cases ASCII letters only; Python's full Unicode `str.upper` is not modelled.
- HTML markup in paragraphs (`<b>`, `<br/>`) is literal text.
- UniqueTemplates.BuildDiagonal: an experience title key holding None is passed raw to `Paragraph` (resume_templates_unique.py:350); the model shows it as the text "None", since what ReportLab does with a None paragraph is not modelled.
- ComplexTemplates.BuildVisual: the same holds for the visual design's raw title (resume_templates_complex.py:362) and raw summary (resume_templates_complex.py:311); a None title is shown as "None" and a None summary as the empty paragraph.
- ComplexTemplates.MakeVisualBox: a title key holding None (resume_templates_complex.py:362) is shown as "None", since ReportLab's handling of a None paragraph is not modelled.
- ComplexTemplates.VisualProfileTable: a summary key holding None (resume_templates_complex.py:311) is shown as the empty paragraph, for the same reason.
- The sidebar's rotated white stripe (resume_templates_unique.py:54-61) reaches about 2.52 inch from the left edge, past the 1.8 inch margin, over the text frame; like the circle art, no claim is made about it. `Geometry.SidebarBandInMargin` states only the solid band.
- ComplexTemplates.BuildModern: a summary key holding None is passed raw to `Paragraph` (resume_templates_complex.py:106); the model renders it as the empty paragraph, since what ReportLab does with a None paragraph is not modelled.
- ComplexTemplates.ModernEmptyContent: a summary key holding None is rendered as the empty paragraph, since what ReportLab does with a None paragraph is not modelled.
- PageBuffer.DecoratingCanvas.Save: the base canvas flushing a page started but never shown is modelled only as leaving the current page undecorated; when nothing was buffered it is left in place.
- Geometry: coordinates are whole tenths of an inch, which every coordinate of the sidebar band and the diagonal banner is; floating point is not modelled.
