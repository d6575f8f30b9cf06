/**
 * The deferred page decoration shared by `SidebarCanvas`, `DiagonalCanvas` and
 * `CircleCanvas`: `showPage` keeps a snapshot of the finished page instead of
 * emitting it, and `save` replays every snapshot, paints the design's
 * decoration over it and only then emits it. A page is the sequence of marks
 * drawn on it; what the drawing primitives paint is not modelled, only that a
 * decoration is drawn and with which design and accent colour.
 */
module PageBuffer {
  import opened Styles

  /** The decoration a design paints on every page: its kind and its accent colour. */
  datatype Decoration = Decoration(kind: UniqueKind, accent: string)

  /** One drawing operation: the document's own content, or the decoration. */
  datatype Mark = Ink(op: nat) | Decor(d: Decoration)

  type Page = seq<Mark>

  /** A page carrying only content, no decoration yet. */
  predicate Plain(page: Page)
  {
    forall j :: 0 <= j < |page| ==> page[j].Ink?
  }

  /** How many decorations were painted on a page. */
  function DecorCount(page: Page): nat
  {
    if page == [] then 0 else DecorCount(page[..|page| - 1]) + (if page[|page| - 1].Decor? then 1 else 0)
  }

  /** What `save` emits for the buffered pages: each page, in order, with the decoration painted last. */
  function Decorated(pages: seq<Page>, d: Decoration): seq<Page>
  {
    seq(|pages|, i requires 0 <= i < |pages| => pages[i] + [Decor(d)])
  }

  lemma {:induction false} PlainCount(page: Page)
    requires Plain(page)
    ensures DecorCount(page) == 0
    decreases |page|
  {
    if page != [] {
      PlainCount(page[..|page| - 1]);
    }
  }

  /**
   * Every emitted page is its buffered page, unchanged, with exactly one
   * decoration after it: the design's own, in the one accent colour.
   */
  lemma DecoratedOnce(pages: seq<Page>, d: Decoration)
    requires forall i :: 0 <= i < |pages| ==> Plain(pages[i])
    ensures |Decorated(pages, d)| == |pages|
    ensures forall i :: 0 <= i < |pages| ==>
      var out := Decorated(pages, d)[i];
      && |out| == |pages[i]| + 1
      && out[..|pages[i]|] == pages[i]
      && out[|pages[i]|] == Decor(d)
      && DecorCount(out) == 1
  {
    forall i | 0 <= i < |pages|
      ensures DecorCount(Decorated(pages, d)[i]) == 1
    {
      var out := Decorated(pages, d)[i];
      assert out[..|out| - 1] == pages[i];
      PlainCount(pages[i]);
    }
  }

  /** Buffering more pages only adds decorated pages at the end: the order of `showPage` is kept. */
  lemma DecoratedAppend(a: seq<Page>, b: seq<Page>, d: Decoration)
    ensures Decorated(a + b, d) == Decorated(a, d) + Decorated(b, d)
  {
  }

  /**
   * The canvas subclass of the three unique designs. `current` is the page being
   * drawn, `pages` the snapshots `showPage` kept, `output` the pages the base
   * canvas emitted, and `saved` whether the base `save` ran.
   */
  class DecoratingCanvas {
    const decoration: Decoration
    var current: Page
    var pages: seq<Page>
    var output: seq<Page>
    var saved: bool

    /** Nothing painted by the decoration yet sits on a buffered or current page. */
    predicate Valid()
      reads this
    {
      Plain(current) && forall i :: 0 <= i < |pages| ==> Plain(pages[i])
    }

    /** `__init__`: a fresh canvas with an empty page buffer. */
    constructor(d: Decoration)
      ensures Valid()
      ensures decoration == d && current == [] && pages == [] && output == [] && !saved
    {
      decoration := d;
      current := [];
      pages := [];
      output := [];
      saved := false;
    }

    /** The document's own drawing on the current page. */
    method Draw(op: nat)
      requires Valid()
      modifies this
      ensures Valid()
      ensures current == old(current) + [Ink(op)]
      ensures pages == old(pages) && output == old(output) && saved == old(saved)
    {
      current := current + [Ink(op)];
    }

    /** `showPage`: keep a snapshot of the finished page and start a new one; nothing is emitted. */
    method ShowPage()
      requires Valid()
      modifies this
      ensures Valid()
      ensures pages == old(pages) + [old(current)] && current == []
      ensures output == old(output) && saved == old(saved)
    {
      pages := pages + [current];
      current := [];
    }

    /**
     * `save`: for every snapshot in turn, restore it, paint the decoration and let
     * the base canvas emit it; then the base `save`. The buffer is left as it was.
     */
    method Save()
      requires Valid()
      modifies this
      ensures output == old(output) + Decorated(old(pages), decoration)
      ensures pages == old(pages) && saved
      ensures current == if old(pages) == [] then old(current) else []
      ensures Valid()
    {
      ghost var start := output;
      for i := 0 to |pages|
        invariant pages == old(pages) && |output| == |start| + i
        invariant output[..|start|] == start
        invariant forall j :: 0 <= j < i ==> output[|start| + j] == pages[j] + [Decor(decoration)]
        invariant current == if i == 0 then old(current) else []
      {
        current := pages[i];
        current := current + [Decor(decoration)];
        output := output + [current];
        current := [];
      }
      assert output == start + Decorated(pages, decoration);
      saved := true;
    }
  }

  /** The three pages of the example below, as `save` emits them. */
  lemma ThreePagesDecorated(d: Decoration)
    ensures Decorated([[Ink(0)], [Ink(1), Ink(2)], []], d) == [[Ink(0), Decor(d)], [Ink(1), Ink(2), Decor(d)], [Decor(d)]]
  {
    var ps: seq<Page> := [[Ink(0)], [Ink(1), Ink(2)], []];
    assert Decorated(ps, d)[0] == [Ink(0), Decor(d)];
    assert Decorated(ps, d)[1] == [Ink(1), Ink(2), Decor(d)];
    assert Decorated(ps, d)[2] == [Decor(d)];
  }

  /**
   * A document of three pages, the last one blank: each `showPage` buffers,
   * nothing reaches the output until `save`, which then emits the three pages in
   * order, each decorated once.
   */
  method ThreePages(d: Decoration) returns (out: seq<Page>)
    ensures out == Decorated([[Ink(0)], [Ink(1), Ink(2)], []], d)
  {
    var c := new DecoratingCanvas(d);
    c.Draw(0);
    assert c.current == [Ink(0)];
    c.ShowPage();
    c.Draw(1);
    c.Draw(2);
    assert c.current == [Ink(1), Ink(2)];
    c.ShowPage();
    c.ShowPage();
    assert c.output == [] && c.pages == [[Ink(0)], [Ink(1), Ink(2)], []];
    c.Save();
    out := c.output;
  }
}
