/**
 * The command-line generator's handling of the language model's reply and its
 * PDF step: the reply is stripped and any Markdown code fence around the JSON
 * is cut away before parsing, and the PDF is rendered with one of the three
 * unique designs in blue.
 */
module Reply {
  import opened Wrappers
  import opened Text
  import opened Content
  import opened Styles
  import opened UniqueTemplates

  const JsonFence: string := "```json"
  const Fence: string := "```"

  /**
   * The text handed to the JSON parser: the stripped reply, and when it opens
   * with a fence, the stripped text after the opening fence up to the next one.
   * Both splits always have the piece taken from them, so no reply can make the
   * indexing fail.
   */
  function StripFences(reply: string): (r: string)
    ensures Trimmed(r)
  {
    var content := Strip(reply);
    if StartsWith(content, JsonFence) then
      SplitFront(content, JsonFence);
      Strip(Split(Split(content, JsonFence)[1], Fence)[0])
    else if StartsWith(content, Fence) then
      SplitFront(content, Fence);
      Strip(Split(Split(content, Fence)[1], Fence)[0])
    else
      content
  }

  /** A separator at the very start is the first one found. */
  lemma FindAtStart(s: string, sep: string)
    requires sep != [] && StartsWith(s, sep)
    ensures Find(s, sep) == 0
  {
  }

  /** Every occurrence of "```json" is an occurrence of "```". */
  lemma JsonFenceIsFence(s: string, i: int)
    ensures OccursAt(s, JsonFence, i) ==> OccursAt(s, Fence, i)
  {
    if OccursAt(s, JsonFence, i) {
      assert s[i..i + 3] == s[i..i + 7][..3];
    }
  }

  /** Cutting at the first "```json" and then at the first "```" cuts at a "```" (or at the end) in the original text. */
  lemma CutAtFence(body: string) returns (k: nat)
    ensures k <= |body|
    ensures Split(Split(body, JsonFence)[0], Fence)[0] == body[..k]
    ensures Find(body[..k], Fence) == -1
    ensures k == |body| || OccursAt(body, Fence, k)
  {
    SplitFront(body, JsonFence);
    var t := TakeUntil(body, JsonFence);
    SplitFront(t, Fence);
    var u := TakeUntil(t, Fence);
    k := |u|;
    assert u == body[..k];
    if k < |body| {
      if k < |t| {
        var j := Find(t, Fence);
        assert OccursAt(t, Fence, k);
        assert body[k..k + 3] == t[k..k + 3];
      } else {
        var i := Find(body, JsonFence);
        assert i == k;
        JsonFenceIsFence(body, i);
      }
    }
  }

  /**
   * A reply opening with "```json" yields the text that follows the opening
   * fence, cut before the next "```json" if there is one, then cut before the
   * first "```" of what is left, and stripped.
   */
  lemma JsonFencedReply(reply: string)
    requires StartsWith(Strip(reply), JsonFence)
    ensures var body := Strip(reply)[7..];
      var t := if Find(body, JsonFence) == -1 then body else body[..Find(body, JsonFence)];
      StripFences(reply) == Strip(if Find(t, Fence) == -1 then t else t[..Find(t, Fence)])
  {
    var content := Strip(reply);
    var body := content[7..];
    FindAtStart(content, JsonFence);
    SplitFront(content, JsonFence);
    assert Split(content, JsonFence)[1] == TakeUntil(body, JsonFence);
    SplitFront(TakeUntil(body, JsonFence), Fence);
  }

  /**
   * The inner split also cuts at a "```json" that starts inside a run of
   * backquotes: a reply "```json`" + "```json" + x gives the lone backquote,
   * not the text up to the first "```" after the opening fence (which would be
   * empty), whatever `x` is.
   */
  lemma OverlappingFences(x: string)
    requires x == [] || !IsSpace(x[|x| - 1])
    ensures StripFences(JsonFence + "`" + JsonFence + x) == "`"
  {
    var reply := JsonFence + "`" + JsonFence + x;
    var body := reply[7..];
    OverlapReply(x);
    JsonFencedReply(reply);
    OverlapBody(x);
    assert body[..1] == "`";
    assert Find("`", Fence) == -1;
    StripTrimmed("`");
  }

  /** The overlapping reply is already stripped and opens with "```json". */
  lemma OverlapReply(x: string)
    requires x == [] || !IsSpace(x[|x| - 1])
    ensures var reply := JsonFence + "`" + JsonFence + x;
      Strip(reply) == reply && StartsWith(reply, JsonFence) && reply[7..] == "`" + JsonFence + x
  {
    var reply := JsonFence + "`" + JsonFence + x;
    assert !IsSpace('`') && !IsSpace('n') by {
      NotListed('`', Whitespace);
      NotListed('n', Whitespace);
    }
    assert reply[0] == '`';
    assert reply[|reply| - 1] == if x == [] then 'n' else x[|x| - 1];
    StripTrimmed(reply);
    assert reply[..7] == JsonFence;
    assert !IsSpace('`');
  }

  /** After the opening fence, the first "```json" starts right after the lone backquote. */
  lemma OverlapBody(x: string)
    ensures Find("`" + JsonFence + x, JsonFence) == 1
  {
    var body := "`" + JsonFence + x;
    assert body[1..8] == JsonFence;
    assert body[3] != JsonFence[3];
    FindIs(body, JsonFence, 1);
  }

  /** `Find` gives the first occurrence, or -1 when there is none. */
  lemma FindIs(s: string, sep: string, i: int)
    requires sep != []
    requires i == -1 || OccursAt(s, sep, i)
    requires forall j :: 0 <= j && (i == -1 || j < i) ==> !OccursAt(s, sep, j)
    ensures Find(s, sep) == i
  {
  }

  /**
   * The same branch seen from the original text: the result is the stripped
   * text that follows the opening fence up to a cut that lies at a "```" or at
   * the end, with no "```" before the cut.
   */
  lemma JsonFencedCut(reply: string) returns (k: nat)
    requires StartsWith(Strip(reply), JsonFence)
    ensures var body := Strip(reply)[7..];
      && k <= |body|
      && StripFences(reply) == Strip(body[..k])
      && Find(body[..k], Fence) == -1
      && (k == |body| || OccursAt(body, Fence, k))
  {
    var content := Strip(reply);
    var body := content[7..];
    FindAtStart(content, JsonFence);
    SplitFront(content, JsonFence);
    assert Split(content, JsonFence)[1] == TakeUntil(body, JsonFence);
    SplitFront(body, JsonFence);
    k := CutAtFence(body);
  }

  /**
   * A reply opening with "```" but not "```json" yields the stripped text
   * between the first and the second fence, or up to the end when there is no
   * second fence.
   */
  lemma PlainFencedReply(reply: string)
    requires StartsWith(Strip(reply), Fence) && !StartsWith(Strip(reply), JsonFence)
    ensures var body := Strip(reply)[3..];
      StripFences(reply) == Strip(if Find(body, Fence) == -1 then body else body[..Find(body, Fence)])
  {
    var content := Strip(reply);
    var body := content[3..];
    FindAtStart(content, Fence);
    SplitFront(content, Fence);
    var piece := TakeUntil(body, Fence);
    assert Split(content, Fence)[1] == piece;
    SplitFront(piece, Fence);
    assert TakeUntil(piece, Fence) == piece;
  }

  /** A reply with no fence anywhere is passed on only stripped. */
  lemma UnfencedReply(reply: string)
    requires Find(reply, Fence) == -1
    ensures StripFences(reply) == Strip(reply)
  {
    var content := Strip(reply);
    var lo := LeadEnd(reply, 0);
    assert !OccursAt(reply, Fence, lo);
    assert |content| >= 3 ==> content[0..3] == reply[lo..lo + 3];
    JsonFenceIsFence(content, 0);
  }

  /** In "\n" + x + "\n```" with no fence in `x`, the closing fence is the only one. */
  lemma OnlyClosingFence(x: string, p: int)
    requires Find(x, Fence) == -1
    requires OccursAt("\n" + x + "\n```", Fence, p)
    ensures p == |x| + 2
  {
    var body := "\n" + x + "\n```";
    var f := body[p..p + 3];
    assert f == Fence && f[0] == body[p] && f[1] == body[p + 1] && f[2] == body[p + 2];
    assert body[0] == '\n' && body[|x| + 1] == '\n';
    assert !OccursAt(x, Fence, p - 1);
    assert forall i :: 0 <= i < |x| ==> x[i] == body[i + 1];
    FenceFromChars(x, p - 1);
  }

  /** Three backquotes in a row are a fence. */
  lemma FenceFromChars(s: string, i: int)
    ensures 0 <= i && i + 3 <= |s| && s[i] == '`' && s[i + 1] == '`' && s[i + 2] == '`' ==> OccursAt(s, Fence, i)
  {
    if 0 <= i && i + 3 <= |s| && s[i] == '`' && s[i + 1] == '`' && s[i + 2] == '`' {
      assert s[i..i + 3] == Fence;
    }
  }

  /**
   * The fence round trip: wrapping a JSON text that holds no "```" in a
   * ```json fence, as the model often does, and stripping the fences gives the
   * stripped text back.
   */
  lemma FenceRoundTrip(x: string)
    requires Find(x, Fence) == -1
    ensures StripFences(JsonFence + "\n" + x + "\n" + Fence) == Strip(x)
  {
    var reply := JsonFence + "\n" + x + "\n" + Fence;
    var body := "\n" + x + "\n```";
    WrappedReply(x);
    var k := JsonFencedCut(reply);
    ClosingFenceCut(x, k);
    OneOfListed(Whitespace, 2);
    assert AllSpace("\n");
    StripPadding("\n", x, "\n");
  }

  /** The wrapped reply is already stripped and opens with "```json", followed by the body. */
  lemma WrappedReply(x: string)
    ensures var reply := JsonFence + "\n" + x + "\n" + Fence;
      Strip(reply) == reply && StartsWith(reply, JsonFence) && reply[7..] == "\n" + x + "\n```"
  {
    var reply := JsonFence + "\n" + x + "\n" + Fence;
    assert !IsSpace('`') by {
      NotListed('`', Whitespace);
    }
    assert reply[0] == '`' && reply[|reply| - 1] == '`';
    StripTrimmed(reply);
    assert reply[..7] == JsonFence;
  }

  /** Cutting the body at a fence (or at its end) with no fence before the cut leaves the text between the newlines. */
  lemma ClosingFenceCut(x: string, k: nat)
    requires Find(x, Fence) == -1
    requires var body := "\n" + x + "\n```";
      k <= |body| && Find(body[..k], Fence) == -1 && (k == |body| || OccursAt(body, Fence, k))
    ensures ("\n" + x + "\n```")[..k] == "\n" + x + "\n"
  {
    var body := "\n" + x + "\n```";
    if k < |body| {
      OnlyClosingFence(x, k);
    } else {
      assert body[..k] == body;
      assert OccursAt(body, Fence, |x| + 2) by {
        assert body[|x| + 2..|x| + 5] == Fence;
      }
      assert false;
    }
  }

  /** A character not among `chars` is not one of them. */
  lemma {:induction false} NotListed(c: char, chars: string)
    requires forall i :: 0 <= i < |chars| ==> chars[i] != c
    ensures !OneOf(c, chars)
    decreases |chars|
  {
    if chars != [] {
      NotListed(c, chars[1..]);
    }
  }

  /** `create_pdf`'s template if-chain: the three form names, and the sidebar for anything else. */
  function GeneratorTemplateType(template: string): (t: string)
    ensures t == FormTemplateType(Some(template))
  {
    if template == "sidebar_accent" then "sidebar"
    else if template == "diagonal_header" then "diagonal"
    else if template == "circle_accent" then "circle"
    else "sidebar"
  }

  /**
   * `create_pdf`: render the generated content with the design the template
   * name selects, always in the blue accent and the default font.
   */
  method CreatePdf(c: Resume, p: Person, template: string) returns (r: Rendering)
    ensures r.kind == (if template == "diagonal_header" then Diagonal
                       else if template == "circle_accent" then Circle
                       else Sidebar)
    ensures r.accent == AccentColor(None)
    ensures r.fonts == Fonts(Some("helvetica"))
    ensures r.blocks == UniqueBlocks(r.kind, c, p)
  {
    FormTemplateSelectsDesign(Some(template));
    BlueIsDefault();
    r := CreateUniqueResume(c, p, GeneratorTemplateType(template), Some("blue"), Some("helvetica"));
  }
}
