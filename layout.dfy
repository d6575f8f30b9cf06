/**
 * The layout vocabulary the five templates share, standing in for ReportLab's
 * flowables, and the algorithms they share: the contact line, one bullet per
 * item, row-major skill grids padded with blanks and the column-major
 * two-column skill split.
 */
module Layout {
  import opened Wrappers
  import opened Text
  import opened Content
  import opened Seqs

  /**
   * What a paragraph is for; each template gives each role its own paragraph style.
   * `Banner` is a line set on a full-width accent-filled bar (a one-cell table with
   * a background colour).
   */
  datatype Role = Name | Contact | Heading | Body | JobTitle | Meta | Bullet | EducationLine | SkillLine | Dates | Banner

  /** A cell of a skill table: the bare '' of a padding cell, or a paragraph. */
  datatype Cell = Empty | Label(text: string)

  /**
   * A flowable. Markup such as `<b>` and `<br/>` is kept as literal text;
   * spacer heights are in hundredths of an inch.
   */
  datatype Block =
    | Para(role: Role, text: string)              // Paragraph
    | Rule                                        // the short accent line under a section heading
    | Spacer(height: nat)                         // Spacer(1, height)
    | Grid(rows: seq<seq<Cell>>)                  // a table of skill cells
    | Boxed(content: seq<Block>)                  // a one-column table holding a column of flowables
    | TwoColumn(left: Block, right: seq<Block>)   // a one-row table: narrow left cell, wide right cell

  /** The bullet every template but the diagonal one puts before an achievement. */
  const BulletMark := "\U{2022} "

  /** A section title as it shows up in the document: once when the section is present, else not at all. */
  function Listed(present: bool, title: string): seq<string>
  {
    if present then [title] else []
  }

  function Min(a: int, b: int): int
  {
    if a <= b then a else b
  }

  /** The flowables `f(x)` contributes for each `x` of `xs`, one after another. */
  function ConcatMap<T>(f: T -> seq<Block>, xs: seq<T>): seq<Block>
    decreases |xs|
  {
    if xs == [] then [] else f(xs[0]) + ConcatMap(f, xs[1..])
  }

  /** Appending one more item to the loop's input appends its flowables. */
  lemma {:induction false} ConcatMapSnoc<T>(f: T -> seq<Block>, xs: seq<T>, x: T)
    ensures ConcatMap(f, xs + [x]) == ConcatMap(f, xs) + f(x)
    decreases |xs|
  {
    if xs == [] {
      assert [x][1..] == [];
      assert f(x) + [] == f(x);
    } else {
      assert (xs + [x])[0] == xs[0];
      assert (xs + [x])[1..] == xs[1..] + [x];
      ConcatMapSnoc(f, xs[1..], x);
    }
  }

  /** One more loop step: the flowables of the first `i + 1` items are those of the first `i`, then item `i`'s. */
  lemma ConcatMapPrefix<T>(f: T -> seq<Block>, xs: seq<T>, i: nat)
    requires i < |xs|
    ensures ConcatMap(f, xs[..i + 1]) == ConcatMap(f, xs[..i]) + f(xs[i])
  {
    assert xs[..i + 1] == xs[..i] + [xs[i]];
    ConcatMapSnoc(f, xs[..i], xs[i]);
  }

  /** The text of `b` when it is a paragraph playing `role`, nothing otherwise. */
  function OwnText(role: Role, b: Block): seq<string>
  {
    if b.Para? && b.role == role then [b.text] else []
  }

  /** The texts of the top-level paragraphs that play `role`, in document order. */
  function ParasOf(role: Role, blocks: seq<Block>): seq<string>
    decreases |blocks|
  {
    if blocks == [] then [] else OwnText(role, blocks[0]) + ParasOf(role, blocks[1..])
  }

  lemma {:induction false} ParasOfAppend(role: Role, a: seq<Block>, b: seq<Block>)
    ensures ParasOf(role, a + b) == ParasOf(role, a) + ParasOf(role, b)
    decreases |a|
  {
    if a == [] {
      assert a + b == b;
    } else {
      assert (a + b)[0] == a[0];
      assert (a + b)[1..] == a[1..] + b;
      ParasOfAppend(role, a[1..], b);
      assert ParasOf(role, a + b) == OwnText(role, a[0]) + (ParasOf(role, a[1..]) + ParasOf(role, b));
    }
  }

  /** The strings `g(x)` gives for each `x` of `xs`, one after another. */
  function ConcatStrings<T>(g: T -> seq<string>, xs: seq<T>): seq<string>
    decreases |xs|
  {
    if xs == [] then [] else g(xs[0]) + ConcatStrings(g, xs[1..])
  }

  /** Reading the paragraphs of one role out of a concatenation reads them entry by entry. */
  lemma {:induction false} ParasOfConcatMap<T>(role: Role, f: T -> seq<Block>, g: T -> seq<string>, xs: seq<T>)
    requires forall i :: 0 <= i < |xs| ==> ParasOf(role, f(xs[i])) == g(xs[i])
    ensures ParasOf(role, ConcatMap(f, xs)) == ConcatStrings(g, xs)
    decreases |xs|
  {
    if xs != [] {
      ParasOfAppend(role, f(xs[0]), ConcatMap(f, xs[1..]));
      assert forall i :: 0 <= i < |xs[1..]| ==> xs[1..][i] == xs[i + 1];
      ParasOfConcatMap(role, f, g, xs[1..]);
    }
  }

  /** `marker + item` for every item, in order. */
  function Marked(marker: string, items: seq<string>): seq<string>
  {
    seq(|items|, i requires 0 <= i < |items| => marker + items[i])
  }

  /** `Paragraph(f'{marker}{item}')` for every item, in order. */
  function Bullets(marker: string, items: seq<string>): seq<Block>
  {
    seq(|items|, i requires 0 <= i < |items| => Para(Bullet, marker + items[i]))
  }

  /** The bullet texts of one entry's achievements, marked with the common bullet. */
  function AchievementBullets(e: Experience): seq<string>
  {
    Marked(BulletMark, e.achievements)
  }

  /** A bullet list holds exactly one bullet per item, in the items' order, nothing merged or cut. */
  lemma {:induction false} BulletsAreItems(marker: string, items: seq<string>)
    ensures |Bullets(marker, items)| == |items|
    ensures ParasOf(Bullet, Bullets(marker, items)) == Marked(marker, items)
    decreases |items|
  {
    if items != [] {
      assert Bullets(marker, items)[1..] == Bullets(marker, items[1..]);
      BulletsAreItems(marker, items[1..]);
      assert Marked(marker, items) == [marker + items[0]] + Marked(marker, items[1..]);
    }
  }

  /**
   * An entry laid out as some blocks, a bullet list and some more blocks shows,
   * as bullets, exactly the marked items, and adds nothing to any role the blocks
   * around the list do not hold.
   */
  lemma BulletedEntry(head: seq<Block>, marker: string, items: seq<string>, tail: seq<Block>, other: Role)
    requires ParasOf(Bullet, head) == [] && ParasOf(Bullet, tail) == []
    requires other != Bullet && ParasOf(other, head) == [] && ParasOf(other, tail) == []
    ensures |head + Bullets(marker, items) + tail| == |head| + |items| + |tail|
    ensures ParasOf(Bullet, head + Bullets(marker, items) + tail) == Marked(marker, items)
    ensures ParasOf(other, head + Bullets(marker, items) + tail) == []
  {
    var bullets := Bullets(marker, items);
    BulletsAreItems(marker, items);
    ParasOfNone(other, bullets);
    ParasOfAppend(Bullet, head + bullets, tail);
    ParasOfAppend(Bullet, head, bullets);
    ParasOfAppend(other, head + bullets, tail);
    ParasOfAppend(other, head, bullets);
    assert [] + Marked(marker, items) + [] == Marked(marker, items);
  }

  /** A block list holding no top-level paragraph of `role` contributes nothing to `ParasOf(role, _)`. */
  lemma {:induction false} ParasOfNone(role: Role, blocks: seq<Block>)
    requires forall i :: 0 <= i < |blocks| ==> !(blocks[i].Para? && blocks[i].role == role)
    ensures ParasOf(role, blocks) == []
    decreases |blocks|
  {
    if blocks != [] {
      ParasOfNone(role, blocks[1..]);
    }
  }

  /** A block list whose only paragraph of `role` can be its first block. */
  lemma ParasOfLead(role: Role, blocks: seq<Block>)
    requires |blocks| >= 1
    requires forall i :: 1 <= i < |blocks| ==> !(blocks[i].Para? && blocks[i].role == role)
    ensures ParasOf(role, blocks) == if blocks[0].Para? && blocks[0].role == role then [blocks[0].text] else []
  {
    ParasOfNone(role, blocks[1..]);
  }

  lemma ParasOf5(role: Role, a: seq<Block>, b: seq<Block>, c: seq<Block>, d: seq<Block>, e: seq<Block>)
    ensures ParasOf(role, a + b + c + d + e) ==
      ParasOf(role, a) + ParasOf(role, b) + ParasOf(role, c) + ParasOf(role, d) + ParasOf(role, e)
  {
    ParasOfAppend(role, a + b + c + d, e);
    ParasOfAppend(role, a + b + c, d);
    ParasOfAppend(role, a + b, c);
    ParasOfAppend(role, a, b);
  }

  /** A document of five sections reads, role by role, as its sections read one after another. */
  lemma ParasOfSections(role: Role, a: seq<Block>, b: seq<Block>, c: seq<Block>, d: seq<Block>, e: seq<Block>,
                        tb: seq<string>, tc: seq<string>, td: seq<string>, te: seq<string>)
    requires ParasOf(role, a) == [] && ParasOf(role, b) == tb && ParasOf(role, c) == tc
    requires ParasOf(role, d) == td && ParasOf(role, e) == te
    ensures ParasOf(role, a + b + c + d + e) == tb + tc + td + te
  {
    ParasOf5(role, a, b, c, d, e);
    assert [] + tb == tb;
  }

  /** A document whose first two sections hold no paragraph of `role` reads, for `role`, as its last three. */
  lemma ParasOfLaterSections(role: Role, a: seq<Block>, b: seq<Block>, c: seq<Block>, d: seq<Block>, e: seq<Block>,
                             tc: seq<string>, td: seq<string>, te: seq<string>)
    requires ParasOf(role, a) == [] && ParasOf(role, b) == []
    requires ParasOf(role, c) == tc && ParasOf(role, d) == td && ParasOf(role, e) == te
    ensures ParasOf(role, a + b + c + d + e) == tc + td + te
  {
    ParasOfSections(role, a, b, c, d, e, [], tc, td, te);
    assert [] + tc == tc;
  }

  lemma {:induction false} ConcatStringsEmpty<T>(g: T -> seq<string>, xs: seq<T>)
    requires forall i :: 0 <= i < |xs| ==> g(xs[i]) == []
    ensures ConcatStrings(g, xs) == []
    decreases |xs|
  {
    if xs != [] {
      assert forall i :: 0 <= i < |xs[1..]| ==> xs[1..][i] == xs[i + 1];
      ConcatStringsEmpty(g, xs[1..]);
    }
  }

  /** The blocks of `f(x)` for no `x` at all, or only for `x` without paragraphs of `role`, hold none. */
  lemma ParasOfConcatMapNone<T>(role: Role, f: T -> seq<Block>, xs: seq<T>)
    requires forall i :: 0 <= i < |xs| ==> ParasOf(role, f(xs[i])) == []
    ensures ParasOf(role, ConcatMap(f, xs)) == []
  {
    ParasOfConcatMap(role, f, (x: T) => [], xs);
    ConcatStringsEmpty((x: T) => [], xs);
  }

  /** A section made of a heading block list and entries without paragraphs of `role` shows only its heading. */
  lemma HeadedList<T>(role: Role, head: seq<Block>, f: T -> seq<Block>, xs: seq<T>)
    requires |head| >= 1 && head[0].Para? && head[0].role == role
    requires forall i :: 1 <= i < |head| ==> !(head[i].Para? && head[i].role == role)
    requires forall i :: 0 <= i < |xs| ==> ParasOf(role, f(xs[i])) == []
    ensures ParasOf(role, head + ConcatMap(f, xs)) == [head[0].text]
  {
    ParasOfLead(role, head);
    ParasOfConcatMapNone(role, f, xs);
    ParasOfAppend(role, head, ConcatMap(f, xs));
  }

  /** A section whose heading blocks and entries hold no paragraph of `role` holds none at all. */
  lemma HeadedListNone<T>(role: Role, head: seq<Block>, f: T -> seq<Block>, xs: seq<T>)
    requires forall i :: 0 <= i < |head| ==> !(head[i].Para? && head[i].role == role)
    requires forall i :: 0 <= i < |xs| ==> ParasOf(role, f(xs[i])) == []
    ensures ParasOf(role, head + ConcatMap(f, xs)) == []
  {
    ParasOfNone(role, head);
    ParasOfConcatMapNone(role, f, xs);
    ParasOfAppend(role, head, ConcatMap(f, xs));
  }

  /** A section whose heading blocks hold no paragraph of `role` shows, for `role`, its entries' paragraphs in turn. */
  lemma HeadedListParas<T>(role: Role, head: seq<Block>, f: T -> seq<Block>, g: T -> seq<string>, xs: seq<T>)
    requires forall i :: 0 <= i < |head| ==> !(head[i].Para? && head[i].role == role)
    requires forall i :: 0 <= i < |xs| ==> ParasOf(role, f(xs[i])) == g(xs[i])
    ensures ParasOf(role, head + ConcatMap(f, xs)) == ConcatStrings(g, xs)
  {
    ParasOfNone(role, head);
    ParasOfConcatMap(role, f, g, xs);
    ParasOfAppend(role, head, ConcatMap(f, xs));
  }

  /** No top-level block is a table of cells. */
  predicate NoGrid(blocks: seq<Block>)
  {
    forall i :: 0 <= i < |blocks| ==> !blocks[i].Grid?
  }

  /** Entries that contribute no grid contribute none together. */
  lemma NoGridAppend(a: seq<Block>, b: seq<Block>)
    requires NoGrid(a) && NoGrid(b)
    ensures NoGrid(a + b)
  {
    forall i | 0 <= i < |a + b| ensures !(a + b)[i].Grid? {
      if i >= |a| {
        assert (a + b)[i] == b[i - |a|];
      }
    }
  }

  lemma {:induction false} ConcatMapNoGrid<T>(f: T -> seq<Block>, xs: seq<T>)
    requires forall i :: 0 <= i < |xs| ==> NoGrid(f(xs[i]))
    ensures NoGrid(ConcatMap(f, xs))
    decreases |xs|
  {
    if xs != [] {
      assert NoGrid(f(xs[0]));
      ConcatMapNoGrid(f, xs[1..]);
    }
  }

  /** `for x in xs: elements.extend(f(x))` for entries whose flowables need no loop of their own. */
  method AppendEach<T>(elements: seq<Block>, f: T -> seq<Block>, xs: seq<T>) returns (out: seq<Block>)
    ensures out == elements + ConcatMap(f, xs)
  {
    out := elements;
    for i := 0 to |xs|
      invariant out == elements + ConcatMap(f, xs[..i])
    {
      ConcatMapPrefix(f, xs, i);
      out := out + f(xs[i]);
    }
    assert xs[..|xs|] == xs;
  }

  /** `for achievement in items: elements.append(Paragraph(f'{marker}{achievement}'))` */
  method AppendBullets(elements: seq<Block>, marker: string, items: seq<string>) returns (out: seq<Block>)
    ensures out == elements + Bullets(marker, items)
  {
    out := elements;
    for j := 0 to |items|
      invariant out == elements + Bullets(marker, items[..j])
    {
      assert Bullets(marker, items[..j + 1]) == Bullets(marker, items[..j]) + [Para(Bullet, marker + items[j])];
      out := out + [Para(Bullet, marker + items[j])];
    }
    assert items[..|items|] == items;
  }

  /**
   * The contact tokens: each present, non-empty field behind its template's
   * prefix, in the order email, phone, location.
   */
  function ContactParts(p: Person, emailMark: string, phoneMark: string, locationMark: string): seq<string>
  {
    (if Truthy(p.email) then [emailMark + p.email.value] else [])
    + (if Truthy(p.phone) then [phoneMark + p.phone.value] else [])
    + (if Truthy(p.location) then [locationMark + p.location.value] else [])
  }

  /** `sep.join(contact_parts)` */
  function ContactLine(p: Person, emailMark: string, phoneMark: string, locationMark: string, sep: string): string
  {
    Join(ContactParts(p, emailMark, phoneMark, locationMark), sep)
  }

  /** How many of email, phone and location are present and non-empty. */
  function PresentCount(p: Person): nat
  {
    (if Truthy(p.email) then 1 else 0) + (if Truthy(p.phone) then 1 else 0) + (if Truthy(p.location) then 1 else 0)
  }

  /**
   * The contact line has one token per present field; with none it is empty,
   * with exactly one it is that token and no separator, with two it is those
   * two in order around one separator, with all three it is email, phone,
   * location joined by the separator.
   */
  lemma ContactLineShape(p: Person, emailMark: string, phoneMark: string, locationMark: string, sep: string)
    ensures |ContactParts(p, emailMark, phoneMark, locationMark)| == PresentCount(p)
    ensures PresentCount(p) == 0 ==> ContactLine(p, emailMark, phoneMark, locationMark, sep) == ""
    ensures PresentCount(p) == 1 ==>
      ContactLine(p, emailMark, phoneMark, locationMark, sep) ==
        (if Truthy(p.email) then emailMark + p.email.value
         else if Truthy(p.phone) then phoneMark + p.phone.value
         else locationMark + p.location.value)
    ensures PresentCount(p) == 2 ==>
      ContactLine(p, emailMark, phoneMark, locationMark, sep) ==
        (if Truthy(p.email) then emailMark + p.email.value else phoneMark + p.phone.value)
        + sep + (if Truthy(p.location) then locationMark + p.location.value else phoneMark + p.phone.value)
    ensures PresentCount(p) == 3 ==>
      ContactLine(p, emailMark, phoneMark, locationMark, sep) ==
        emailMark + p.email.value + sep + phoneMark + p.phone.value + sep + locationMark + p.location.value
  {
    var parts := ContactParts(p, emailMark, phoneMark, locationMark);
    if PresentCount(p) == 3 {
      var e, ph, l := emailMark + p.email.value, phoneMark + p.phone.value, locationMark + p.location.value;
      assert parts == [e, ph, l];
      assert parts[1..] == [ph, l] && parts[1..][1..] == [l];
      assert Join(parts[1..], sep) == ph + sep + l;
    } else if PresentCount(p) == 2 {
      var a := if Truthy(p.email) then emailMark + p.email.value else phoneMark + p.phone.value;
      var b := if Truthy(p.location) then locationMark + p.location.value else phoneMark + p.phone.value;
      assert parts == [a, b];
      assert parts[1..] == [b];
      assert ContactLine(p, emailMark, phoneMark, locationMark, sep) == a + sep + Join([b], sep);
    }
  }

  /** `n` empty strings. */
  function Blanks(n: nat): seq<string>
  {
    seq(n, _ => "")
  }

  /** A column padded with '' up to `target` entries (unchanged when already that long). */
  function Padded(col: seq<string>, target: nat): seq<string>
  {
    if |col| < target then col + Blanks(target - |col|) else col
  }

  /** The padding while-loops of the skill tables: append '' while the column is shorter than `target`. */
  method PadColumn(col: seq<string>, target: nat) returns (padded: seq<string>)
    ensures padded == Padded(col, target)
  {
    padded := col;
    while |padded| < target
      invariant padded == col + Blanks(|padded| - |col|)
      invariant |col| <= |padded|
      invariant |col| < target ==> |padded| <= target
      invariant |col| >= target ==> padded == col
      decreases target - |padded|
    {
      assert Blanks(|padded| + 1 - |col|) == Blanks(|padded| - |col|) + [""];
      padded := padded + [""];
    }
  }

  /** The rows of a `k`-column skill table read left to right: slices of `k` skills, the last padded with ''. */
  function GridRows(skills: seq<string>, k: nat): seq<seq<string>>
    requires k > 0
    decreases |skills|
  {
    if skills == [] then []
    else if |skills| <= k then [skills + Blanks(k - |skills|)]
    else [skills[..k]] + GridRows(skills[k..], k)
  }

  /** `Paragraph(s) if s else ''` */
  function CellOf(s: string): Cell
  {
    if s == "" then Empty else Label(s)
  }

  function Cells(row: seq<string>): seq<Cell>
  {
    seq(|row|, i requires 0 <= i < |row| => CellOf(row[i]))
  }

  function CellRows(rows: seq<seq<string>>): seq<seq<Cell>>
  {
    seq(|rows|, i requires 0 <= i < |rows| => Cells(rows[i]))
  }

  /** The rows one after another. */
  function Flatten(rows: seq<seq<string>>): seq<string>
    decreases |rows|
  {
    if rows == [] then [] else rows[0] + Flatten(rows[1..])
  }

  lemma MulBounds(d: int, k: int)
    requires k > 0
    ensures d >= 1 ==> d * k >= k
    ensures d <= -1 ==> d * k <= -k
  {
  }

  /** Euclidean division is unique: a quotient and remainder in range are `a / k` and `a % k`. */
  lemma DivModUnique(a: int, k: int, q: int, r: int)
    requires k > 0 && 0 <= r < k && a == q * k + r
    ensures a / k == q && a % k == r
  {
    var q2, r2 := a / k, a % k;
    assert a == q2 * k + r2;
    assert (q - q2) * k == r2 - r;
    MulBounds(q - q2, k);
    assert q == q2;
  }

  lemma DivModStep(a: int, k: int)
    requires k > 0 && a >= 0
    ensures (a + k) / k == a / k + 1 && (a + k) % k == a % k
  {
    var q, r := a / k, a % k;
    assert a == q * k + r;
    assert a + k == (q + 1) * k + r;
    DivModUnique(a + k, k, q + 1, r);
  }

  lemma DivOfShortRow(n: int, k: int)
    requires 0 < n <= k
    ensures (n + k - 1) / k == 1
    ensures (k - n % k) % k == k - n
  {
    DivModUnique(n + k - 1, k, 1, n - 1);
    if n < k {
      DivModUnique(n, k, 0, n);
      DivModUnique(k - n, k, 0, k - n);
    } else {
      DivModUnique(k, k, 1, 0);
      DivModUnique(0, k, 0, 0);
    }
  }

  /** A `k`-column grid of `n` skills has ceil(n/k) rows, each exactly `k` cells wide. */
  lemma {:induction false} GridShape(skills: seq<string>, k: nat)
    requires k > 0
    ensures |GridRows(skills, k)| == (|skills| + k - 1) / k
    ensures forall r :: 0 <= r < |GridRows(skills, k)| ==> |GridRows(skills, k)[r]| == k
    decreases |skills|
  {
    if |skills| > k {
      GridShape(skills[k..], k);
      DivModStep(|skills| - 1, k);
      var rows := GridRows(skills, k);
      assert rows == [skills[..k]] + GridRows(skills[k..], k);
    } else if skills != [] {
      DivOfShortRow(|skills|, k);
    } else {
      DivModUnique(k - 1, k, 0, k - 1);
    }
  }

  /**
   * Read row by row, a `k`-column grid gives the skills in their order followed
   * by (k - n mod k) mod k blanks.
   */
  lemma {:induction false} GridReadsInOrder(skills: seq<string>, k: nat)
    requires k > 0
    ensures Flatten(GridRows(skills, k)) == skills + Blanks((k - |skills| % k) % k)
    decreases |skills|
  {
    var rows := GridRows(skills, k);
    if |skills| > k {
      var rest := skills[k..];
      var pad := Blanks((k - |skills| % k) % k);
      GridReadsInOrder(rest, k);
      DivModStep(|rest|, k);
      assert |rest| + k == |skills|;
      assert pad == Blanks((k - |rest| % k) % k);
      assert rows[0] == skills[..k];
      assert rows[1..] == GridRows(rest, k);
      assert Flatten(rows) == skills[..k] + (rest + pad);
      assert skills[..k] + (rest + pad) == (skills[..k] + rest) + pad;
      assert skills == skills[..k] + rest;
    } else if skills != [] {
      DivOfShortRow(|skills|, k);
      assert rows[1..] == [];
      assert Flatten(rows) == rows[0] + [];
    } else {
      DivModUnique(k, k, 1, 0);
      DivModUnique(0, k, 0, 0);
      assert Blanks(0) == [];
    }
  }

  lemma CellRowsAppend(a: seq<seq<string>>, b: seq<seq<string>>)
    ensures CellRows(a + b) == CellRows(a) + CellRows(b)
  {
  }

  /**
   * The row-major skill table (3 columns for the sidebar design, 4 for the circle
   * and visual designs): `for i in range(0, n, k)` slices `k` skills, pads the
   * slice with '' and turns it into cells.
   */
  method SkillGrid(skills: seq<string>, k: nat) returns (rows: seq<seq<Cell>>)
    requires k > 0
    ensures rows == CellRows(GridRows(skills, k))
    ensures |rows| == (|skills| + k - 1) / k
    ensures forall r :: 0 <= r < |rows| ==> |rows[r]| == k
  {
    rows := [];
    var i := 0;
    while i < |skills|
      invariant 0 <= i
      invariant rows + CellRows(GridRows(skills[Min(i, |skills|)..], k)) == CellRows(GridRows(skills, k))
      decreases |skills| - i
    {
      var end := Min(i + k, |skills|);
      var row := skills[i..end];
      row := PadColumn(row, k);
      ghost var rest := GridRows(skills[end..], k);
      assert GridRows(skills[i..], k) == [row] + rest by {
        if |skills[i..]| > k {
          assert skills[i..][..k] == skills[i..end] == row;
          assert skills[i..][k..] == skills[end..];
        } else {
          assert skills[i..end] == skills[i..];
          assert skills[end..] == [];
          assert Blanks(0) == [];
          assert row == skills[i..] + Blanks(k - |skills[i..]|);
        }
      }
      CellRowsAppend([row], rest);
      rows := rows + [Cells(row)];
      i := i + k;
    }
    GridShape(skills, k);
  }

  /** A cell of the modern skill table: `Paragraph(f'• {s}' if s else '')`. */
  function BulletCell(s: string): Cell
  {
    Label(if s != "" then "• " + s else "")
  }

  /**
   * The modern template's split: the first (n+1)//2 skills form the left column
   * and the remaining n//2 the right column, then both are padded to equal length.
   * Only the right column can gain a blank, one at most, and only when n is odd;
   * the left column then the right one without its pad is the original order.
   */
  method BalanceColumns(skills: seq<string>) returns (left: seq<string>, right: seq<string>)
    ensures |left| == (|skills| + 1) / 2 && |right| == |left|
    ensures left == skills[..(|skills| + 1) / 2]
    ensures right == skills[(|skills| + 1) / 2..] + Blanks(|skills| % 2)
    ensures left + right[..|skills| / 2] == skills
    ensures forall q :: 0 <= q < |left| ==>
      left[q] == skills[q] && right[q] == if |left| + q < |skills| then skills[|left| + q] else ""
  {
    var mid := (|skills| + 1) / 2;
    left := skills[..mid];
    right := skills[mid..];
    left := PadColumn(left, |right|);
    right := PadColumn(right, |left|);
    assert right[..|skills| / 2] == skills[mid..];
    assert skills == skills[..mid] + skills[mid..];
  }

  /**
   * The modern skill table as a reference definition: row `r` pairs the r-th
   * skill with the skill ceil(n/2) places further on, or with a blank.
   */
  function SkillPairs(skills: seq<string>): seq<seq<Cell>>
  {
    var mid := (|skills| + 1) / 2;
    seq(mid, r requires 0 <= r < mid =>
      [BulletCell(skills[r]), BulletCell(if mid + r < |skills| then skills[mid + r] else "")])
  }

  /** The modern skill table: zip the balanced columns into rows of two cells. */
  method TwoColumnRows(skills: seq<string>) returns (rows: seq<seq<Cell>>)
    ensures rows == SkillPairs(skills)
  {
    var left, right := BalanceColumns(skills);
    ghost var pairs := SkillPairs(skills);
    rows := [];
    for r := 0 to |left|
      invariant rows == pairs[..r]
    {
      assert pairs[r] == [BulletCell(left[r]), BulletCell(right[r])];
      TakeSnoc(pairs, r);
      rows := rows + [[BulletCell(left[r]), BulletCell(right[r])]];
    }
    TakeAll(pairs);
  }

  /** The cells of one column of a two-cell table, top to bottom. */
  function Column(rows: seq<seq<Cell>>, c: nat): seq<Cell>
    requires forall r :: 0 <= r < |rows| ==> c < |rows[r]|
  {
    seq(|rows|, r requires 0 <= r < |rows| => rows[r][c])
  }

  /**
   * Every row of the modern table has two cells; read down the left column and
   * then down the right one, the cells are the skills in their original order
   * followed by one blank exactly when n is odd.
   */
  lemma SkillPairsReadInOrder(skills: seq<string>)
    ensures forall r :: 0 <= r < |SkillPairs(skills)| ==> |SkillPairs(skills)[r]| == 2
    ensures Column(SkillPairs(skills), 0) + Column(SkillPairs(skills), 1)
      == seq(|skills| + |skills| % 2, i requires 0 <= i < |skills| + |skills| % 2 =>
           BulletCell(if i < |skills| then skills[i] else ""))
  {
  }
}
