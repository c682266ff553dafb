/** The canvas that stamps "Page k of N" on every page: it holds back each
    finished page as a snapshot and, when the document is saved, replays
    the snapshots, draws the stamp on each and only then emits them, so
    that N is the final page count. */
module PageNumbers {
  import opened Text

  /** The state a finished page leaves behind: its number and the drawing
      operations on it. */
  datatype Snapshot = Snapshot(pageNumber: nat, ops: seq<string>)

  /** A page as written to the document. */
  datatype Page = Page(ops: seq<string>)

  /** The stamp text of page `k` out of `n`. */
  function PageLabel(k: nat, n: nat): (stamp: string)
    ensures |stamp| == 9 + |NatToString(k)| + |NatToString(n)|
    ensures stamp[..5] == "Page "
  {
    "Page " + NatToString(k) + " of " + NatToString(n)
  }

  /** The snapshots as pages, each stamped with its own number out of `pageCount`. */
  function StampedWith(saved: seq<Snapshot>, pageCount: nat): seq<Page> {
    seq(|saved|, k requires 0 <= k < |saved| => Page(saved[k].ops + [PageLabel(saved[k].pageNumber, pageCount)]))
  }

  /** The pages `save` writes for the held-back snapshots: the count in
      every stamp is the number of snapshots. */
  function Stamped(saved: seq<Snapshot>): seq<Page> {
    StampedWith(saved, |saved|)
  }

  /** Snapshots numbered 1, 2, 3, ... in order. */
  predicate Numbered(saved: seq<Snapshot>) {
    forall k | 0 <= k < |saved| :: saved[k].pageNumber == k + 1
  }

  class NumberedCanvas {
    /** The number of the page being drawn. */
    var pageNumber: nat
    /** The drawing operations of the page being drawn. */
    var ops: seq<string>
    /** The finished pages held back by `ShowPage`. */
    var saved: seq<Snapshot>
    /** The pages emitted to the document so far. */
    var output: seq<Page>
    /** Set once the document is written. */
    var closed: bool

    /** While pages are being drawn: the held-back pages are numbered from 1
        and the current page is the next one. */
    predicate Valid()
      reads this
    {
      Numbered(saved) && pageNumber == |saved| + 1 && !closed
    }

    constructor ()
      ensures Valid()
      ensures pageNumber == 1 && ops == [] && saved == [] && output == []
    {
      pageNumber := 1;
      ops := [];
      saved := [];
      output := [];
      closed := false;
    }

    /** Drawing on the current page. */
    method Draw(more: seq<string>)
      modifies this
      ensures ops == old(ops) + more
      ensures pageNumber == old(pageNumber) && saved == old(saved) && output == old(output) && closed == old(closed)
    {
      ops := ops + more;
    }

    /** The library's `_startPage`: the next page, blank. */
    method StartPage()
      modifies this
      ensures pageNumber == old(pageNumber) + 1 && ops == []
      ensures saved == old(saved) && output == old(output) && closed == old(closed)
    {
      pageNumber := pageNumber + 1;
      ops := [];
    }

    /** The overriding `showPage`: holds the finished page back as a
        snapshot instead of emitting it. */
    method ShowPage()
      requires Valid()
      modifies this
      ensures Valid()
      ensures saved == old(saved) + [Snapshot(old(pageNumber), old(ops))]
      ensures ops == [] && output == old(output)
    {
      saved := saved + [Snapshot(pageNumber, ops)];
      StartPage();
    }

    /** The base class's `showPage`: writes the current page out. */
    method EmitPage()
      modifies this
      ensures output == old(output) + [Page(old(ops))]
      ensures pageNumber == old(pageNumber) + 1 && ops == []
      ensures saved == old(saved) && closed == old(closed)
    {
      output := output + [Page(ops)];
      StartPage();
    }

    /** `draw_page_number`: the stamp text of the current page. */
    method DrawPageNumber(pageCount: nat)
      modifies this
      ensures ops == old(ops) + [PageLabel(old(pageNumber), pageCount)]
      ensures pageNumber == old(pageNumber) && saved == old(saved) && output == old(output) && closed == old(closed)
    {
      Draw([PageLabel(pageNumber, pageCount)]);
    }

    /** The overriding `save`: restores each snapshot in turn, stamps it with
        the snapshot count and emits it, then writes the document. */
    method Save()
      requires Valid()
      modifies this
      ensures output == old(output) + Stamped(old(saved))
      ensures saved == old(saved) && closed
    {
      var numPages := |saved|;
      var i := 0;
      while i < |saved|
        invariant 0 <= i <= |saved| && saved == old(saved) && numPages == |saved|
        invariant output == old(output) + StampedWith(saved[..i], numPages)
      {
        pageNumber := saved[i].pageNumber;
        ops := saved[i].ops;
        DrawPageNumber(numPages);
        EmitPage();
        assert StampedWith(saved[..i + 1], numPages) == StampedWith(saved[..i], numPages) + [Page(saved[i].ops + [PageLabel(saved[i].pageNumber, numPages)])];
        i := i + 1;
      }
      assert saved[..i] == saved;
      closed := true;
    }
  }

  /** What the layout engine does with the canvas: draws each page, calls
      `showPage` after it, and saves at the end. */
  method RenderPages(pages: seq<seq<string>>) returns (out: seq<Page>)
    ensures |out| == |pages|
    ensures forall k | 0 <= k < |pages| :: out[k] == Page(pages[k] + [PageLabel(k + 1, |pages|)])
  {
    var canvas := new NumberedCanvas();
    var i := 0;
    while i < |pages|
      invariant 0 <= i <= |pages|
      invariant canvas.Valid() && |canvas.saved| == i && canvas.ops == [] && canvas.output == []
      invariant forall k | 0 <= k < i :: canvas.saved[k].ops == pages[k]
    {
      canvas.Draw(pages[i]);
      canvas.ShowPage();
      i := i + 1;
    }
    canvas.Save();
    out := canvas.output;
  }

  /** The stamp split after the page number. */
  lemma PageLabelParts(k: nat, n: nat)
    ensures PageLabel(k, n) == "Page " + NatToString(k) + (" of " + NatToString(n))
  {
  }

  /** The stamp gives back the page number ... */
  lemma PageNumberReadsBack(k: nat, n: nat)
    ensures ReadNumberBefore(PageLabel(k, n), " of " + NatToString(n)) == k
  {
    PageLabelParts(k, n);
    ReadNumberBack("Page ", k, " of " + NatToString(n));
  }

  /** ... and the page count. */
  lemma PageCountReadsBack(k: nat, n: nat)
    ensures ReadNumberBefore(PageLabel(k, n), "") == n
  {
    var prefix := "Page " + NatToString(k) + " of ";
    assert prefix[|prefix| - 1] == ' ';
    ReadNumberBack(prefix, n, "");
    assert prefix + NatToString(n) + "" == PageLabel(k, n);
  }

  /** Different pages, or different page counts, get different stamps. */
  lemma PageLabelInjective(k1: nat, n1: nat, k2: nat, n2: nat)
    ensures PageLabel(k1, n1) == PageLabel(k2, n2) ==> k1 == k2 && n1 == n2
  {
    PageNumberReadsBack(k1, n1);
    PageCountReadsBack(k1, n1);
    PageNumberReadsBack(k2, n2);
    PageCountReadsBack(k2, n2);
  }

  /** Saving numbered snapshots stamps page k as "Page k of N", every page
      with the same N, and no two pages alike. */
  lemma StampedLabels(saved: seq<Snapshot>)
    requires Numbered(saved)
    ensures |Stamped(saved)| == |saved|
    ensures forall k | 0 <= k < |saved| ::
      Stamped(saved)[k] == Page(saved[k].ops + [PageLabel(k + 1, |saved|)])
    ensures forall i, j | 0 <= i < j < |saved| :: Stamped(saved)[i] != Stamped(saved)[j]
  {
    var pages := Stamped(saved);
    forall i, j | 0 <= i < j < |saved|
      ensures pages[i] != pages[j]
    {
      var oi, oj := pages[i].ops, pages[j].ops;
      assert oi[|oi| - 1] == PageLabel(i + 1, |saved|);
      assert oj[|oj| - 1] == PageLabel(j + 1, |saved|);
      PageLabelInjective(i + 1, |saved|, j + 1, |saved|);
    }
  }
}
