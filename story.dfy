/** Assembly of the story (the ordered blocks handed to the layout engine)
    and of the table of contents, from the three datasets of a request. */
module Story {
  import opened Text
  import opened Content
  import SummaryTable

  /** At most this many items of a dataset get a subsection of their own. */
  const MaxItems := 5

  const TableHeading := "1.3 Summary Table"
  const ConclusionHeading := "4. Conclusion"
  const StatisticsHeading := "4.1 Statistics"
  const ConclusionText :=
    "This document was automatically generated through the API developed for the PoC. "
    + "The index above contains clickable links that direct to the corresponding sections."

  function Cap(n: nat): nat {
    if n <= MaxItems then n else MaxItems
  }

  /** The fixed wording of a dataset section. */
  datatype Wording = Wording(
    number: nat, title: string, overview: string, noun: string, countBefore: string, countAfter: string)

  const Section1 := Wording(1, "1. First Data Set", "1.1 Overview", "Item",
                            "This is the first data set received by the API. It contains ", " records.")
  const Section2 := Wording(2, "2. Second Data Set", "2.1 Data Analysis", "Record",
                            "The second set contains ", " elements for analysis.")
  const Section3 := Wording(3, "3. Third Data Set", "3.1 Additional Information", "Element",
                            "This final set has ", " processed items.")

  /** The sentence of a section that reports the dataset's size `n`. */
  function CountSentence(w: Wording, n: nat): string {
    w.countBefore + NatToString(n) + w.countAfter
  }

  /** Heading of the `i`-th item subsection of a section, e.g. "1.2.3 Item 3". */
  function ItemLabel(w: Wording, i: nat): string {
    NatToString(w.number) + ".2." + NatToString(i) + " " + w.noun + " " + NatToString(i)
  }

  /** The blocks of the first `n` item subsections of a section. */
  function ItemBlocks(w: Wording, d: seq<Element>, render: Render, n: nat): seq<Block>
    requires n <= |d|
  {
    if n == 0 then []
    else ItemBlocks(w, d, render, n - 1)
         + [Heading(ItemLabel(w, n), 2), Paragraph(render(d[n - 1]), Body), Spacer(3)]
  }

  /** The index entries of the first `n` item subsections of a section. */
  function ItemEntries(w: Wording, n: nat): seq<Entry> {
    if n == 0 then [] else ItemEntries(w, n - 1) + [Entry(2, ItemLabel(w, n))]
  }

  /** Title, the heading of the table of contents, the table itself and a break. */
  function FrontMatter(): seq<Block> {
    [Paragraph("Proof of Concept Document", Title), Spacer(10),
     Paragraph("Table of Contents", SectionTitle), Spacer(5), Toc, PageBreak]
  }

  /** The four blocks that open a section for a dataset of `n` elements. */
  function SectionOpening(w: Wording, n: nat): seq<Block> {
    [Heading(w.title, 0), Spacer(5), Heading(w.overview, 1), Paragraph(CountSentence(w, n), Body)]
  }

  function SectionBlocks(w: Wording, d: seq<Element>, render: Render, extra: seq<Block>): seq<Block> {
    SectionOpening(w, |d|) + ItemBlocks(w, d, render, Cap(|d|)) + extra
  }

  function SectionEntries(w: Wording, n: nat, extra: seq<Entry>): seq<Entry> {
    [Entry(0, w.title), Entry(1, w.overview)] + ItemEntries(w, Cap(n)) + extra
  }

  /** The statistics paragraph, with the indentation of the source's
      triple-quoted string. */
  function StatsText(n1: nat, n2: nat, n3: nat): string {
    "\n        Total records processed:\n        - Dataset 1: " + NatToString(n1)
    + " records\n        - Dataset 2: " + NatToString(n2)
    + " records\n        - Dataset 3: " + NatToString(n3)
    + " records\n        - Grand total: " + NatToString(n1 + n2 + n3)
    + StatsEnd
  }

  const StatsEnd := " records\n        "

  function ConclusionBlocks(n1: nat, n2: nat, n3: nat): seq<Block> {
    [Heading(ConclusionHeading, 0), Spacer(5), Paragraph(ConclusionText, Body),
     Heading(StatisticsHeading, 1), Paragraph(StatsText(n1, n2, n3), Body)]
  }

  function ConclusionEntries(): seq<Entry> {
    [Entry(0, ConclusionHeading), Entry(1, StatisticsHeading)]
  }

  /** Dataset 1 gets a summary table when its first element is a record. */
  predicate HasTable(d1: seq<Element>) {
    |d1| > 0 && d1[0].Rec?
  }

  /** The table subsection of section 1: its heading and the table built from
      the first five items; building the table may raise. */
  function TableBlocks(d1: seq<Element>, render: Render): Result<seq<Block>> {
    if !HasTable(d1) then Ok([])
    else match SummaryTable.SummaryTable(Take(d1, MaxItems), render)
      case Err(m) => Err(m)
      case Ok(t) => Ok([Heading(TableHeading, 1), t])
  }

  function TableEntries(d1: seq<Element>): seq<Entry> {
    if HasTable(d1) then [Entry(1, TableHeading)] else []
  }

  /** The front matter, the three dataset sections and the conclusion, with
      a page break after each dataset section. */
  function Join(front: seq<Block>, s1: seq<Block>, s2: seq<Block>, s3: seq<Block>, conclusion: seq<Block>): seq<Block> {
    front + s1 + [PageBreak] + s2 + [PageBreak] + s3 + [PageBreak] + conclusion
  }

  /** The story, given the blocks of the table subsection. */
  function Blocks(d1: seq<Element>, d2: seq<Element>, d3: seq<Element>, render: Render, table: seq<Block>): seq<Block> {
    Join(FrontMatter(),
         SectionBlocks(Section1, d1, render, table),
         SectionBlocks(Section2, d2, render, []),
         SectionBlocks(Section3, d3, render, []),
         ConclusionBlocks(|d1|, |d2|, |d3|))
  }

  /** The table of contents, in the order its entries are added. */
  function Index(d1: seq<Element>, d2: seq<Element>, d3: seq<Element>): seq<Entry> {
    SectionEntries(Section1, |d1|, TableEntries(d1))
    + SectionEntries(Section2, |d2|, [])
    + SectionEntries(Section3, |d3|, [])
    + ConclusionEntries()
  }

  /** Everything `generate_pdf` hands to the layout engine, or the exception
      that stops it first. */
  function Assemble(d1: seq<Element>, d2: seq<Element>, d3: seq<Element>, render: Render): (r: Result<Document>)
    ensures r.Err? ==> HasTable(d1) && r.message == SummaryTable.NoGetMessage
  {
    match TableBlocks(d1, render)
    case Err(m) => Err(m)
    case Ok(table) => Ok(Document(Blocks(d1, d2, d3, render, table), Index(d1, d2, d3)))
  }

  /** The table of contents flowable; it collects entries through `AddEntry`. */
  class TableOfContents {
    var entries: seq<Entry>

    constructor ()
      ensures entries == []
    {
      entries := [];
    }

    /** `addEntry(level, text, page)`; the page argument is not modelled. */
    method AddEntry(level: nat, text: string)
      modifies this
      ensures entries == old(entries) + [Entry(level, text)]
    {
      entries := entries + [Entry(level, text)];
    }
  }

  /** Appends the title, spacer, overview heading and count sentence of a
      section, registering both headings. */
  method OpenSection(toc: TableOfContents, story0: seq<Block>, w: Wording, n: nat) returns (story: seq<Block>)
    modifies toc
    ensures story == story0 + SectionOpening(w, n)
    ensures toc.entries == old(toc.entries) + [Entry(0, w.title), Entry(1, w.overview)]
  {
    story := story0 + [Heading(w.title, 0)];
    toc.AddEntry(0, w.title);
    story := story + [Spacer(5)];
    story := story + [Heading(w.overview, 1)];
    toc.AddEntry(1, w.overview);
    story := story + [Paragraph(CountSentence(w, n), Body)];
  }

  /** The loop over `enumerate(d[:5], 1)`: a heading, the item's text and a
      spacer per item. */
  method AddItems(toc: TableOfContents, story0: seq<Block>, w: Wording, d: seq<Element>, render: Render)
    returns (story: seq<Block>)
    modifies toc
    ensures story == story0 + ItemBlocks(w, d, render, Cap(|d|))
    ensures toc.entries == old(toc.entries) + ItemEntries(w, Cap(|d|))
  {
    story := story0;
    var shown := Take(d, MaxItems);
    var i := 1;
    while i <= |shown|
      invariant 1 <= i <= |shown| + 1
      invariant story == story0 + ItemBlocks(w, d, render, i - 1)
      invariant toc.entries == old(toc.entries) + ItemEntries(w, i - 1)
    {
      var item := shown[i - 1];
      story := story + [Heading(ItemLabel(w, i), 2)];
      toc.AddEntry(2, ItemLabel(w, i));
      story := story + [Paragraph(render(item), Body)];
      story := story + [Spacer(3)];
      i := i + 1;
    }
  }

  /** The opening and the item subsections of a dataset section. */
  method AddDataset(toc: TableOfContents, story0: seq<Block>, w: Wording, d: seq<Element>, render: Render)
    returns (story: seq<Block>)
    modifies toc
    ensures story == story0 + SectionBlocks(w, d, render, [])
    ensures toc.entries == old(toc.entries) + SectionEntries(w, |d|, [])
  {
    story := OpenSection(toc, story0, w, |d|);
    ghost var heads := [Entry(0, w.title), Entry(1, w.overview)];
    story := AddItems(toc, story, w, d, render);
    ghost var items := ItemBlocks(w, d, render, Cap(|d|));
    ghost var itemEntries := ItemEntries(w, Cap(|d|));
    AppendAssoc(story0, SectionOpening(w, |d|), items);
    assert SectionOpening(w, |d|) + items + [] == SectionOpening(w, |d|) + items;
    AppendAssoc(old(toc.entries), heads, itemEntries);
    assert heads + itemEntries + [] == heads + itemEntries;
  }

  /** Section 4: the closing remark and the statistics. */
  method AddConclusion(toc: TableOfContents, story0: seq<Block>, n1: nat, n2: nat, n3: nat)
    returns (story: seq<Block>)
    modifies toc
    ensures story == story0 + ConclusionBlocks(n1, n2, n3)
    ensures toc.entries == old(toc.entries) + ConclusionEntries()
  {
    story := story0 + [Heading(ConclusionHeading, 0)];
    toc.AddEntry(0, ConclusionHeading);
    story := story + [Spacer(5)];
    story := story + [Paragraph(ConclusionText, Body)];
    story := story + [Heading(StatisticsHeading, 1)];
    toc.AddEntry(1, StatisticsHeading);
    story := story + [Paragraph(StatsText(n1, n2, n3), Body)];
  }

  /** The title, the table-of-contents heading, the table of contents itself
      and the page break after it. */
  method AddFrontMatter() returns (story: seq<Block>)
    ensures story == FrontMatter()
  {
    story := [];
    story := story + [Paragraph("Proof of Concept Document", Title)];
    story := story + [Spacer(10)];
    story := story + [Paragraph("Table of Contents", SectionTitle)];
    story := story + [Spacer(5)];
    story := story + [Toc];
    story := story + [PageBreak];
  }

  /** The summary-table subsection of section 1, when the first item is a
      record; building the table may raise. */
  method AddTable(toc: TableOfContents, story0: seq<Block>, d1: seq<Element>, render: Render)
    returns (r: Result<seq<Block>>)
    modifies toc
    ensures TableBlocks(d1, render).Err? ==> r == Err(TableBlocks(d1, render).message)
    ensures TableBlocks(d1, render).Ok? ==>
      r == Ok(story0 + TableBlocks(d1, render).value) && toc.entries == old(toc.entries) + TableEntries(d1)
  {
    if |d1| > 0 && d1[0].Rec? {
      var story := story0 + [Heading(TableHeading, 1)];
      toc.AddEntry(1, TableHeading);
      var t := SummaryTable.CreateSummaryTable(Take(d1, MaxItems), render);
      if t.Err? {
        return Err(t.message);
      }
      story := story + [t.value];
      assert story == story0 + [Heading(TableHeading, 1), t.value];
      return Ok(story);
    }
    assert story0 + [] == story0;
    return Ok(story0);
  }

  lemma SectionWithExtra(w: Wording, d: seq<Element>, render: Render, extra: seq<Block>, extraEntries: seq<Entry>)
    ensures SectionBlocks(w, d, render, []) + extra == SectionBlocks(w, d, render, extra)
    ensures SectionEntries(w, |d|, []) + extraEntries == SectionEntries(w, |d|, extraEntries)
  {
  }

  /** Section 1: the dataset's opening and items, the summary-table
      subsection, and the page break that ends it. */
  method AddFirstSection(toc: TableOfContents, story0: seq<Block>, d1: seq<Element>, render: Render)
    returns (r: Result<seq<Block>>)
    modifies toc
    ensures TableBlocks(d1, render).Err? ==> r == Err(TableBlocks(d1, render).message)
    ensures TableBlocks(d1, render).Ok? ==>
      r == Ok(story0 + SectionBlocks(Section1, d1, render, TableBlocks(d1, render).value) + [PageBreak])
      && toc.entries == old(toc.entries) + SectionEntries(Section1, |d1|, TableEntries(d1))
  {
    var story := AddDataset(toc, story0, Section1, d1, render);
    var withTable := AddTable(toc, story, d1, render);
    if withTable.Err? {
      return Err(withTable.message);
    }
    ghost var table := TableBlocks(d1, render).value;
    ghost var plain := SectionBlocks(Section1, d1, render, []);
    SectionWithExtra(Section1, d1, render, table, TableEntries(d1));
    AppendAssoc(story0, plain, table);
    AppendAssoc(old(toc.entries), SectionEntries(Section1, |d1|, []), TableEntries(d1));
    return Ok(withTable.value + [PageBreak]);
  }

  /** `generate_pdf` up to the call of the layout engine: builds the story by
      appending blocks and the table of contents by adding entries. */
  method GeneratePdf(d1: seq<Element>, d2: seq<Element>, d3: seq<Element>, render: Render)
    returns (r: Result<Document>)
    ensures r == Assemble(d1, d2, d3, render)
  {
    var story := AddFrontMatter();
    var toc := new TableOfContents();
    var first := AddFirstSection(toc, story, d1, render);
    if first.Err? {
      return Err(first.message);
    }
    ghost var s1 := SectionBlocks(Section1, d1, render, TableBlocks(d1, render).value);
    ghost var e1 := SectionEntries(Section1, |d1|, TableEntries(d1));
    assert [] + e1 == e1;
    story := first.value;
    story := AddDataset(toc, story, Section2, d2, render);
    story := story + [PageBreak];
    story := AddDataset(toc, story, Section3, d3, render);
    story := story + [PageBreak];
    story := AddConclusion(toc, story, |d1|, |d2|, |d3|);
    assert story == Join(FrontMatter(), s1, SectionBlocks(Section2, d2, render, []),
                         SectionBlocks(Section3, d3, render, []), ConclusionBlocks(|d1|, |d2|, |d3|));
    assert toc.entries == Index(d1, d2, d3);
    return Ok(Document(story, toc.entries));
  }
}
