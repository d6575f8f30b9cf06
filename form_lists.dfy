/**
 * The list fields of the resume editor: the comma-separated skills box and the
 * one-achievement-per-line text areas, as `regenerate_resume` splits them.
 */
module FormLists {
  import opened Seqs
  import opened Text

  /**
   * `[x.strip() for x in pieces if x.strip()]`: the stripped pieces, in order,
   * with those that strip to nothing dropped.
   */
  function KeepStripped(pieces: seq<string>): (r: seq<string>)
    ensures |r| <= |pieces|
    ensures forall k :: 0 <= k < |r| ==> r[k] != "" && Trimmed(r[k])
  {
    if pieces == [] then []
    else
      var s := Strip(pieces[0]);
      (if s != "" then [s] else []) + KeepStripped(pieces[1..])
  }

  /** `[s.strip() for s in raw.split(',') if s.strip()]` */
  function ParseSkills(raw: string): seq<string>
  {
    KeepStripped(Split(raw, ","))
  }

  /** `[a.strip() for a in text.split('\n') if a.strip()]` */
  function ParseAchievements(text: string): seq<string>
  {
    KeepStripped(Split(text, "\n"))
  }

  /** Parsed skills are never empty and never start or end with whitespace. */
  lemma ParsedSkillsClean(raw: string)
    ensures forall k :: 0 <= k < |ParseSkills(raw)| ==> ParseSkills(raw)[k] != "" && Trimmed(ParseSkills(raw)[k])
    ensures |ParseSkills(raw)| <= |Split(raw, ",")|
  {
  }

  /** The pieces ", ".join(xs) splits into at ',': the first one behind `first`, the others behind a space. */
  function Spaced(xs: seq<string>, first: string): (r: seq<string>)
    ensures |r| == |xs|
  {
    seq(|xs|, k requires 0 <= k < |xs| => (if k == 0 then first else " ") + xs[k])
  }

  lemma SpacedTail(xs: seq<string>, first: string)
    requires xs != []
    ensures Spaced(xs, first) == [first + xs[0]] + Spaced(xs[1..], " ")
  {
    var r := Spaced(xs, first);
    ConsTail(r);
    assert r[1..] == Spaced(xs[1..], " ");
  }

  /** Joining with ", " is joining with ',' the pieces that carry the space. */
  lemma {:induction false} JoinSpaced(xs: seq<string>, first: string)
    requires xs != []
    ensures first + Join(xs, ", ") == Join(Spaced(xs, first), ",")
    decreases |xs|
  {
    SpacedTail(xs, first);
    if |xs| > 1 {
      var ys := xs[1..];
      JoinSpaced(ys, " ");
      JoinCons(first + xs[0], Spaced(ys, " "), ",");
      assert Join(xs, ", ") == xs[0] + ", " + Join(ys, ", ");
      assert first + (xs[0] + ", " + Join(ys, ", ")) == (first + xs[0]) + "," + (" " + Join(ys, ", "));
    }
  }

  /** A trimmed, non-empty skill behind whitespace strips back to itself. */
  lemma StripBehindSpace(pad: string, x: string)
    requires AllSpace(pad) && Trimmed(x)
    ensures Strip(pad + x) == x
  {
    assert pad + x + "" == pad + x;
    StripPadding(pad, x, "");
    StripTrimmed(x);
  }

  lemma {:induction false} KeepStrippedSpaced(xs: seq<string>, first: string)
    requires AllSpace(first)
    requires forall k :: 0 <= k < |xs| ==> xs[k] != "" && Trimmed(xs[k])
    ensures KeepStripped(Spaced(xs, first)) == xs
    decreases |xs|
  {
    if xs != [] {
      SpacedTail(xs, first);
      StripBehindSpace(first, xs[0]);
      TailOfCons(first + xs[0], Spaced(xs[1..], " "));
      KeepStrippedSpaced(xs[1..], " ");
      ConsTail(xs);
    }
  }

  /** No piece of `Spaced` holds a character that neither the skills nor the padding hold. */
  lemma SpacedFree(xs: seq<string>, first: string, c: char)
    requires c != ' ' && c !in first
    requires forall k :: 0 <= k < |xs| ==> c !in xs[k]
    ensures forall k :: 0 <= k < |Spaced(xs, first)| ==> c !in Spaced(xs, first)[k]
  {
    forall k | 0 <= k < |xs| ensures c !in Spaced(xs, first)[k] {
      var pad := if k == 0 then first else " ";
      assert Spaced(xs, first)[k] == pad + xs[k];
      assert c !in pad;
    }
  }

  /**
   * The skills field round-trips: skills that are non-empty, free of commas and
   * already trimmed, joined with ", " as the editor shows them, parse back to
   * the same list in the same order.
   */
  lemma SkillsRoundTrip(skills: seq<string>)
    requires forall k :: 0 <= k < |skills| ==> skills[k] != "" && Trimmed(skills[k]) && ',' !in skills[k]
    ensures ParseSkills(Join(skills, ", ")) == skills
  {
    if skills == [] {
      EmptyFieldParsesEmpty(",");
    } else {
      SkillPieces(skills);
    }
  }

  /** An empty field splits into one empty piece, which is dropped: it parses to no items. */
  lemma EmptyFieldParsesEmpty(sep: string)
    requires sep != []
    ensures KeepStripped(Split("", sep)) == []
  {
    SplitFront("", sep);
    assert Split("", sep) == [""];
    assert Strip("") == "";
  }

  /**
   * Splitting the joined skills at ',' gives the skills, all but the first
   * behind a space, and stripping those pieces gives back the skills.
   */
  lemma SkillPieces(skills: seq<string>)
    requires skills != []
    requires forall k :: 0 <= k < |skills| ==> skills[k] != "" && Trimmed(skills[k]) && ',' !in skills[k]
    ensures Split(Join(skills, ", "), ",") == Spaced(skills, "")
    ensures KeepStripped(Spaced(skills, "")) == skills
  {
    var pieces := Spaced(skills, "");
    JoinSpaced(skills, "");
    assert "" + Join(skills, ", ") == Join(skills, ", ");
    SpacedFree(skills, "", ',');
    SplitJoinChar(pieces, ',');
    KeepStrippedSpaced(skills, "");
  }

  /** The pieces "\r\n".join(lines) splits into at '\n': every line but the last keeps its '\r'. */
  function CarriageReturns(lines: seq<string>): (r: seq<string>)
    ensures |r| == |lines|
  {
    seq(|lines|, k requires 0 <= k < |lines| => lines[k] + (if k < |lines| - 1 then "\r" else ""))
  }

  lemma CarriageReturnsTail(lines: seq<string>)
    requires |lines| >= 2
    ensures CarriageReturns(lines) == [lines[0] + "\r"] + CarriageReturns(lines[1..])
  {
    var r := CarriageReturns(lines);
    ConsTail(r);
    assert r[1..] == CarriageReturns(lines[1..]);
  }

  lemma {:induction false} JoinCarriageReturns(lines: seq<string>)
    requires lines != []
    ensures Join(lines, "\r\n") == Join(CarriageReturns(lines), "\n")
    decreases |lines|
  {
    if |lines| == 1 {
      assert CarriageReturns(lines) == [lines[0] + ""];
    } else {
      var ys := lines[1..];
      CarriageReturnsTail(lines);
      JoinCarriageReturns(ys);
      JoinCons(lines[0] + "\r", CarriageReturns(ys), "\n");
      assert lines[0] + "\r\n" + Join(ys, "\r\n") == (lines[0] + "\r") + "\n" + Join(ys, "\r\n");
    }
  }

  /** A trailing '\r' is whitespace, so stripping drops it. */
  lemma StripCarriageReturn(x: string)
    ensures Strip(x + "\r") == Strip(x)
  {
    OneOfListed(Whitespace, 3);
    assert AllSpace("\r") && AllSpace("");
    StripPadding("", x, "\r");
    assert "" + x + "\r" == x + "\r";
    assert "" + x + "" == x;
    StripPadding("", x, "");
  }

  lemma {:induction false} KeepStrippedCarriageReturns(lines: seq<string>)
    requires lines != []
    ensures KeepStripped(CarriageReturns(lines)) == KeepStripped(lines)
    decreases |lines|
  {
    if |lines| == 1 {
      assert CarriageReturns(lines) == [lines[0] + ""];
      assert lines[0] + "" == lines[0];
    } else {
      CarriageReturnsTail(lines);
      StripCarriageReturn(lines[0]);
      TailOfCons(lines[0] + "\r", CarriageReturns(lines[1..]));
      KeepStrippedCarriageReturns(lines[1..]);
    }
  }

  /** A stripped piece is a slice of the piece, so it holds no character the piece does not. */
  lemma KeepStrippedFrom(pieces: seq<string>, c: char)
    requires forall k :: 0 <= k < |pieces| ==> c !in pieces[k]
    ensures forall k :: 0 <= k < |KeepStripped(pieces)| ==> c !in KeepStripped(pieces)[k]
    decreases |pieces|
  {
    if pieces != [] {
      var s := Strip(pieces[0]);
      assert forall j :: 0 <= j < |s| ==> s[j] == pieces[0][LeadEnd(pieces[0], 0) + j];
      KeepStrippedFrom(pieces[1..], c);
    }
  }

  /**
   * Achievements typed with Windows line ends parse line by line: the lines
   * stripped, blank ones dropped, order kept, and no '\r' left in any of them.
   */
  lemma AchievementsCrLf(lines: seq<string>)
    requires forall k :: 0 <= k < |lines| ==> '\n' !in lines[k] && '\r' !in lines[k]
    ensures ParseAchievements(Join(lines, "\r\n")) == KeepStripped(lines)
    ensures forall k :: 0 <= k < |ParseAchievements(Join(lines, "\r\n"))| ==> '\r' !in ParseAchievements(Join(lines, "\r\n"))[k]
  {
    if lines == [] {
      EmptyFieldParsesEmpty("\n");
    } else {
      CrLfLines(lines);
    }
  }

  /** The non-empty case of `AchievementsCrLf`. */
  lemma CrLfLines(lines: seq<string>)
    requires lines != []
    requires forall k :: 0 <= k < |lines| ==> '\n' !in lines[k] && '\r' !in lines[k]
    ensures ParseAchievements(Join(lines, "\r\n")) == KeepStripped(lines)
    ensures forall k :: 0 <= k < |ParseAchievements(Join(lines, "\r\n"))| ==> '\r' !in ParseAchievements(Join(lines, "\r\n"))[k]
  {
    JoinCarriageReturns(lines);
    var pieces := CarriageReturns(lines);
    forall k | 0 <= k < |pieces| ensures '\n' !in pieces[k] {
      assert pieces[k] == lines[k] + (if k < |lines| - 1 then "\r" else "");
    }
    SplitJoinChar(pieces, '\n');
    KeepStrippedCarriageReturns(lines);
    KeepStrippedFrom(lines, '\r');
  }
}
