/** Where things sit in the assembled story: every section starts on a new
    page, each heading is immediately followed by the text it introduces,
    the summary table appears once under its heading exactly when dataset 1
    starts with a record, and the numbers in the prose can be read back. */
module StoryLayout {
  import opened Text
  import opened Content
  import SummaryTable
  import opened Story
  import opened StoryProperties

  predicate IsTitle(b: Block) {
    b.Heading? && b.level == 0
  }

  predicate IsBreak(b: Block) {
    b == PageBreak
  }

  predicate IsTable(b: Block) {
    b.Table?
  }

  /** A page break comes immediately before every section title, and nowhere else. */
  predicate BreaksBeforeTitles(s: seq<Block>) {
    forall i | 0 < i < |s| :: IsBreak(s[i - 1]) <==> IsTitle(s[i])
  }

  /** A section: a title first, no other title, no page break. */
  predicate OneSection(s: seq<Block>) {
    && |s| > 0 && IsTitle(s[0])
    && (forall i | 0 < i < |s| :: !IsTitle(s[i]))
    && (forall i | 0 <= i < |s| :: !IsBreak(s[i]))
  }

  lemma OneSectionBreaks(s: seq<Block>)
    requires OneSection(s)
    ensures BreaksBeforeTitles(s)
  {
    forall i | 0 < i < |s|
      ensures IsBreak(s[i - 1]) <==> IsTitle(s[i])
    {
      assert !IsBreak(s[i - 1]);
    }
  }

  lemma BreaksAppend(a: seq<Block>, b: seq<Block>)
    requires BreaksBeforeTitles(a) && BreaksBeforeTitles(b)
    requires 0 < |a| && 0 < |b| && (IsBreak(a[|a| - 1]) <==> IsTitle(b[0]))
    ensures BreaksBeforeTitles(a + b)
  {
    var s := a + b;
    forall i | 0 < i < |s|
      ensures IsBreak(s[i - 1]) <==> IsTitle(s[i])
    {
      if i < |a| {
        assert s[i] == a[i] && s[i - 1] == a[i - 1];
      } else if i == |a| {
        assert s[i] == b[0] && s[i - 1] == a[|a| - 1];
      } else {
        assert s[i] == b[i - |a|] && s[i - 1] == b[i - 1 - |a|];
      }
    }
  }

  /** The block `create_summary_table` returns is a table or an empty spacer. */
  lemma SummaryTableKinds(data: seq<Element>, render: Render)
    requires SummaryTable.SummaryTable(data, render).Ok?
    ensures SummaryTable.SummaryTable(data, render).value.Table? <==> 0 < |data| && data[0].Rec?
    ensures SummaryTable.SummaryTable(data, render).value.Spacer? <==> !(0 < |data| && data[0].Rec?)
  {
  }

  lemma TableBlocksKinds(d1: seq<Element>, render: Render, table: seq<Block>)
    requires TableBlocks(d1, render) == Ok(table)
    ensures |table| == if HasTable(d1) then 2 else 0
    ensures HasTable(d1) ==> table[0] == Heading(TableHeading, 1)
    ensures HasTable(d1) ==>
      table[1].Table? && Ok(table[1]) == SummaryTable.SummaryTable(Take(d1, MaxItems), render)
  {
    if HasTable(d1) {
      SummaryTableKinds(Take(d1, MaxItems), render);
    }
  }

  lemma SectionIsOne(w: Wording, d: seq<Element>, render: Render, extra: seq<Block>)
    requires forall i | 0 <= i < |extra| :: !IsTitle(extra[i]) && !IsBreak(extra[i])
    ensures OneSection(SectionBlocks(w, d, render, extra))
  {
    var o := SectionOpening(w, |d|);
    var items := ItemBlocks(w, d, render, Cap(|d|));
    var s := SectionBlocks(w, d, render, extra);
    ItemBlocksKinds(w, d, render, Cap(|d|));
    assert s == o + items + extra;
    forall i | 0 <= i < |s|
      ensures (0 < i ==> !IsTitle(s[i])) && !IsBreak(s[i])
    {
      if i < |o| {
        assert s[i] == o[i];
      } else if i < |o| + |items| {
        assert s[i] == items[i - |o|];
      } else {
        assert s[i] == extra[i - |o| - |items|];
      }
    }
  }

  lemma TableSectionIsOne(d1: seq<Element>, render: Render, table: seq<Block>)
    requires TableBlocks(d1, render) == Ok(table)
    ensures OneSection(SectionBlocks(Section1, d1, render, table))
  {
    TableBlocksKinds(d1, render, table);
    SectionIsOne(Section1, d1, render, table);
  }

  lemma ConclusionIsOne(n1: nat, n2: nat, n3: nat)
    ensures OneSection(ConclusionBlocks(n1, n2, n3))
  {
  }

  lemma FrontMatterBreaks()
    ensures BreaksBeforeTitles(FrontMatter())
  {
  }

  lemma JoinBreaks(f: seq<Block>, s1: seq<Block>, s2: seq<Block>, s3: seq<Block>, c: seq<Block>)
    requires BreaksBeforeTitles(f) && 0 < |f| && !IsTitle(f[0]) && IsBreak(f[|f| - 1])
    requires OneSection(s1) && OneSection(s2) && OneSection(s3) && OneSection(c)
    ensures var s := Join(f, s1, s2, s3, c);
      && (forall i | 0 <= i < |s| :: IsTitle(s[i]) ==> 0 < i && IsBreak(s[i - 1]))
      && (forall i | 0 <= i < |s| :: IsBreak(s[i]) ==> i + 1 < |s| && IsTitle(s[i + 1]))
  {
    var pb := [PageBreak];
    assert BreaksBeforeTitles(pb);
    OneSectionBreaks(s1);
    OneSectionBreaks(s2);
    OneSectionBreaks(s3);
    OneSectionBreaks(c);
    var p1 := f + s1;
    BreaksAppend(f, s1);
    var p2 := p1 + pb;
    assert p1[|p1| - 1] == s1[|s1| - 1];
    BreaksAppend(p1, pb);
    var p3 := p2 + s2;
    BreaksAppend(p2, s2);
    var p4 := p3 + pb;
    assert p3[|p3| - 1] == s2[|s2| - 1];
    BreaksAppend(p3, pb);
    var p5 := p4 + s3;
    BreaksAppend(p4, s3);
    var p6 := p5 + pb;
    assert p5[|p5| - 1] == s3[|s3| - 1];
    BreaksAppend(p5, pb);
    BreaksAppend(p6, c);
    var s := p6 + c;
    assert s[0] == f[0];
    assert s[|s| - 1] == c[|c| - 1];
  }

  /** Every section title, the conclusion's included, starts a new page, and
      every page break is followed by a section title: the front matter, the
      three dataset sections and the conclusion each fill their own pages. */
  lemma SectionsStartPages(d1: seq<Element>, d2: seq<Element>, d3: seq<Element>, render: Render, doc: Document)
    requires Assemble(d1, d2, d3, render) == Ok(doc)
    ensures forall i | 0 <= i < |doc.story| :: IsTitle(doc.story[i]) ==> 0 < i && IsBreak(doc.story[i - 1])
    ensures forall i | 0 <= i < |doc.story| :: IsBreak(doc.story[i]) ==> i + 1 < |doc.story| && IsTitle(doc.story[i + 1])
  {
    var table := TableBlocks(d1, render).value;
    TableSectionIsOne(d1, render, table);
    SectionIsOne(Section2, d2, render, []);
    SectionIsOne(Section3, d3, render, []);
    ConclusionIsOne(|d1|, |d2|, |d3|);
    FrontMatterBreaks();
    JoinBreaks(FrontMatter(), SectionBlocks(Section1, d1, render, table), SectionBlocks(Section2, d2, render, []),
               SectionBlocks(Section3, d3, render, []), ConclusionBlocks(|d1|, |d2|, |d3|));
  }

  // ---------------------------------------------------------------------
  // Blocks that follow each other

  /** `part` occurs in `s` as a run of consecutive blocks. */
  predicate Contains(s: seq<Block>, part: seq<Block>) {
    exists p | 0 <= p <= |s| :: part <= s[p..]
  }

  lemma ContainsAt(s: seq<Block>, part: seq<Block>, p: nat)
    requires p + |part| <= |s| && s[p..p + |part|] == part
    ensures Contains(s, part)
  {
    assert part <= s[p..];
  }

  lemma ContainsLeft(a: seq<Block>, b: seq<Block>, part: seq<Block>)
    requires Contains(a, part)
    ensures Contains(a + b, part)
  {
    var p :| 0 <= p <= |a| && part <= a[p..];
    assert (a + b)[p..p + |part|] == part;
    ContainsAt(a + b, part, p);
  }

  lemma ContainsRight(a: seq<Block>, b: seq<Block>, part: seq<Block>)
    requires Contains(b, part)
    ensures Contains(a + b, part)
  {
    var p :| 0 <= p <= |b| && part <= b[p..];
    assert (a + b)[|a| + p..|a| + p + |part|] == part;
    ContainsAt(a + b, part, |a| + p);
  }

  /** A run of blocks in one of the pieces is a run of the joined story. */
  lemma JoinContains(f: seq<Block>, s1: seq<Block>, s2: seq<Block>, s3: seq<Block>, c: seq<Block>, part: seq<Block>)
    requires Contains(s1, part) || Contains(s2, part) || Contains(s3, part) || Contains(c, part)
    ensures Contains(Join(f, s1, s2, s3, c), part)
  {
    var pb := [PageBreak];
    var p1 := f + s1;
    var p3 := p1 + pb + s2;
    var p5 := p3 + pb + s3;
    var p6 := p5 + pb;
    if Contains(c, part) {
      ContainsRight(p6, c, part);
    } else {
      if Contains(s3, part) {
        ContainsRight(p3 + pb, s3, part);
      } else {
        if Contains(s2, part) {
          ContainsRight(p1 + pb, s2, part);
        } else {
          ContainsRight(f, s1, part);
          ContainsLeft(p1, pb, part);
          ContainsLeft(p1 + pb, s2, part);
        }
        ContainsLeft(p3, pb, part);
        ContainsLeft(p3 + pb, s3, part);
      }
      ContainsLeft(p5, pb, part);
      ContainsLeft(p6, c, part);
    }
  }

  /** A run of blocks in one of the sections is a run of the story. */
  lemma ContainsInStory(d1: seq<Element>, d2: seq<Element>, d3: seq<Element>, render: Render, doc: Document,
                        part: seq<Block>)
    requires Assemble(d1, d2, d3, render) == Ok(doc)
    requires Contains(SectionBlocks(Section1, d1, render, TableBlocks(d1, render).value), part)
      || Contains(SectionBlocks(Section2, d2, render, []), part)
      || Contains(SectionBlocks(Section3, d3, render, []), part)
      || Contains(ConclusionBlocks(|d1|, |d2|, |d3|), part)
    ensures Contains(doc.story, part)
  {
    JoinContains(FrontMatter(), SectionBlocks(Section1, d1, render, TableBlocks(d1, render).value),
                 SectionBlocks(Section2, d2, render, []), SectionBlocks(Section3, d3, render, []),
                 ConclusionBlocks(|d1|, |d2|, |d3|), part);
  }

  /** The three blocks of item subsection `i`: its numbered heading, the
      item's text and a spacer. */
  function ItemRun(w: Wording, i: nat, text: string): seq<Block> {
    [Heading(ItemLabel(w, i), 2), Paragraph(text, Body), Spacer(3)]
  }

  lemma ItemInItems(w: Wording, d: seq<Element>, render: Render, n: nat, j: nat)
    requires j < n <= |d|
    ensures Contains(ItemBlocks(w, d, render, n), ItemRun(w, j + 1, render(d[j])))
  {
    var items := ItemBlocks(w, d, render, n);
    var run := ItemRun(w, j + 1, render(d[j]));
    ItemBlocksShape(w, d, render, n);
    var slice := items[3 * j..3 * j + 3];
    assert slice[0] == run[0] && slice[1] == run[1] && slice[2] == run[2];
    assert slice == run;
    ContainsAt(items, run, 3 * j);
  }

  lemma ItemInSection(w: Wording, d: seq<Element>, render: Render, extra: seq<Block>, j: nat)
    requires j < Cap(|d|)
    ensures Contains(SectionBlocks(w, d, render, extra), ItemRun(w, j + 1, render(d[j])))
  {
    var o := SectionOpening(w, |d|);
    var items := ItemBlocks(w, d, render, Cap(|d|));
    var run := ItemRun(w, j + 1, render(d[j]));
    ItemInItems(w, d, render, Cap(|d|), j);
    ContainsRight(o, items, run);
    ContainsLeft(o + items, extra, run);
  }

  /** Each of the first five items of every dataset gets its numbered heading,
      immediately followed by the item's text and a spacer. */
  lemma ItemsInStory(d1: seq<Element>, d2: seq<Element>, d3: seq<Element>, render: Render, doc: Document)
    requires Assemble(d1, d2, d3, render) == Ok(doc)
    ensures forall j | 0 <= j < Cap(|d1|) :: Contains(doc.story, ItemRun(Section1, j + 1, render(d1[j])))
    ensures forall j | 0 <= j < Cap(|d2|) :: Contains(doc.story, ItemRun(Section2, j + 1, render(d2[j])))
    ensures forall j | 0 <= j < Cap(|d3|) :: Contains(doc.story, ItemRun(Section3, j + 1, render(d3[j])))
  {
    forall j | 0 <= j < Cap(|d1|)
      ensures Contains(doc.story, ItemRun(Section1, j + 1, render(d1[j])))
    {
      ItemInSection(Section1, d1, render, TableBlocks(d1, render).value, j);
      ContainsInStory(d1, d2, d3, render, doc, ItemRun(Section1, j + 1, render(d1[j])));
    }
    forall j | 0 <= j < Cap(|d2|)
      ensures Contains(doc.story, ItemRun(Section2, j + 1, render(d2[j])))
    {
      ItemInSection(Section2, d2, render, [], j);
      ContainsInStory(d1, d2, d3, render, doc, ItemRun(Section2, j + 1, render(d2[j])));
    }
    forall j | 0 <= j < Cap(|d3|)
      ensures Contains(doc.story, ItemRun(Section3, j + 1, render(d3[j])))
    {
      ItemInSection(Section3, d3, render, [], j);
      ContainsInStory(d1, d2, d3, render, doc, ItemRun(Section3, j + 1, render(d3[j])));
    }
  }

  // ---------------------------------------------------------------------
  // Counts in the prose

  /** The overview heading of a section, followed by the sentence that
      reports the size of its dataset. */
  function OverviewRun(w: Wording, n: nat): seq<Block> {
    [Heading(w.overview, 1), Paragraph(CountSentence(w, n), Body)]
  }

  lemma OverviewInSection(w: Wording, d: seq<Element>, render: Render, extra: seq<Block>)
    ensures Contains(SectionBlocks(w, d, render, extra), OverviewRun(w, |d|))
  {
    var o := SectionOpening(w, |d|);
    var items := ItemBlocks(w, d, render, Cap(|d|));
    assert o[2..4] == OverviewRun(w, |d|);
    ContainsAt(o, OverviewRun(w, |d|), 2);
    ContainsLeft(o, items, OverviewRun(w, |d|));
    ContainsLeft(o + items, extra, OverviewRun(w, |d|));
  }

  /** Every dataset section states its dataset's full length. */
  lemma CountsInStory(d1: seq<Element>, d2: seq<Element>, d3: seq<Element>, render: Render, doc: Document)
    requires Assemble(d1, d2, d3, render) == Ok(doc)
    ensures Contains(doc.story, OverviewRun(Section1, |d1|))
    ensures Contains(doc.story, OverviewRun(Section2, |d2|))
    ensures Contains(doc.story, OverviewRun(Section3, |d3|))
  {
    var table := TableBlocks(d1, render).value;
    OverviewInSection(Section1, d1, render, table);
    ContainsInStory(d1, d2, d3, render, doc, OverviewRun(Section1, |d1|));
    OverviewInSection(Section2, d2, render, []);
    ContainsInStory(d1, d2, d3, render, doc, OverviewRun(Section2, |d2|));
    OverviewInSection(Section3, d3, render, []);
    ContainsInStory(d1, d2, d3, render, doc, OverviewRun(Section3, |d3|));
  }

  lemma JoinEnd(f: seq<Block>, s1: seq<Block>, s2: seq<Block>, s3: seq<Block>, c: seq<Block>)
    requires 2 <= |c|
    ensures var s := Join(f, s1, s2, s3, c); 2 <= |s| && s[|s| - 2] == c[|c| - 2] && s[|s| - 1] == c[|c| - 1]
  {
  }

  /** The story ends with the statistics paragraph under its heading. */
  lemma StatsAtEnd(d1: seq<Element>, d2: seq<Element>, d3: seq<Element>, render: Render, doc: Document)
    requires Assemble(d1, d2, d3, render) == Ok(doc)
    ensures 2 <= |doc.story|
    ensures doc.story[|doc.story| - 2] == Heading(StatisticsHeading, 1)
    ensures doc.story[|doc.story| - 1] == Paragraph(StatsText(|d1|, |d2|, |d3|), Body)
  {
    var c := ConclusionBlocks(|d1|, |d2|, |d3|);
    var table := TableBlocks(d1, render).value;
    JoinEnd(FrontMatter(), SectionBlocks(Section1, d1, render, table), SectionBlocks(Section2, d2, render, []),
            SectionBlocks(Section3, d3, render, []), c);
  }

  /** The number in a section's count sentence is the dataset's length. */
  lemma CountSentenceReadsBack(w: Wording, n: nat)
    requires w == Section1 || w == Section2 || w == Section3
    ensures ReadNumberBefore(CountSentence(w, n), w.countAfter) == n
  {
    assert w.countBefore[|w.countBefore| - 1] == ' ';
    ReadNumberBack(w.countBefore, n, w.countAfter);
  }

  /** The grand total in the statistics paragraph is the sum of the three lengths. */
  lemma StatsReadsBack(n1: nat, n2: nat, n3: nat)
    ensures ReadNumberBefore(StatsText(n1, n2, n3), StatsEnd) == n1 + n2 + n3
  {
    var head := "\n        Total records processed:\n        - Dataset 1: " + NatToString(n1)
      + " records\n        - Dataset 2: " + NatToString(n2)
      + " records\n        - Dataset 3: " + NatToString(n3);
    var prefix := head + " records\n        - Grand total: ";
    assert prefix[|prefix| - 1] == ' ';
    ReadNumberBack(prefix, n1 + n2 + n3, StatsEnd);
  }

  // ---------------------------------------------------------------------
  // The summary table in the story

  /** How often a kind of block occurs in the joined story, piece by piece. */
  lemma JoinCount(f: seq<Block>, s1: seq<Block>, s2: seq<Block>, s3: seq<Block>, c: seq<Block>, p: Block -> bool)
    ensures CountWhere(Join(f, s1, s2, s3, c), p) ==
      CountWhere(f, p) + CountWhere(s1, p) + CountWhere(s2, p) + CountWhere(s3, p) + CountWhere(c, p)
      + 3 * CountWhere([PageBreak], p)
  {
    var pb := [PageBreak];
    var p1 := f + s1;
    var p2 := p1 + pb;
    var p3 := p2 + s2;
    var p4 := p3 + pb;
    var p5 := p4 + s3;
    var p6 := p5 + pb;
    CountWhereAppend(p6, c, p);
    CountWhereAppend(p5, pb, p);
    CountWhereAppend(p4, s3, p);
    CountWhereAppend(p3, pb, p);
    CountWhereAppend(p2, s2, p);
    CountWhereAppend(p1, pb, p);
    CountWhereAppend(f, s1, p);
  }

  lemma NoBreakInSection(s: seq<Block>)
    requires OneSection(s)
    ensures CountWhere(s, IsBreak) == 0
  {
    CountWhereNone(s, IsBreak);
  }

  lemma FrontMatterCounts()
    ensures CountWhere(FrontMatter(), IsBreak) == 1
    ensures CountWhere(FrontMatter(), IsTable) == 0
  {
    var f := FrontMatter();
    CountWhereNone(f[..5], IsBreak);
    CountWhereSnoc(f[..5], f[5], IsBreak);
    assert f[..5] + [f[5]] == f;
    CountWhereNone(f, IsTable);
  }

  lemma BreakCounts()
    ensures CountWhere([PageBreak], IsBreak) == 1
    ensures CountWhere([PageBreak], IsTable) == 0
  {
    CountWhereSnoc([], PageBreak, IsBreak);
    CountWhereSnoc([], PageBreak, IsTable);
    assert [] + [PageBreak] == [PageBreak];
  }

  /** The story holds four page breaks: after the table of contents and
      after each dataset section. */
  lemma BreakCount(d1: seq<Element>, d2: seq<Element>, d3: seq<Element>, render: Render, doc: Document)
    requires Assemble(d1, d2, d3, render) == Ok(doc)
    ensures CountWhere(doc.story, IsBreak) == 4
  {
    var table := TableBlocks(d1, render).value;
    var s1 := SectionBlocks(Section1, d1, render, table);
    var s2 := SectionBlocks(Section2, d2, render, []);
    var s3 := SectionBlocks(Section3, d3, render, []);
    var c := ConclusionBlocks(|d1|, |d2|, |d3|);
    TableSectionIsOne(d1, render, table);
    NoBreakInSection(s1);
    SectionIsOne(Section2, d2, render, []);
    NoBreakInSection(s2);
    SectionIsOne(Section3, d3, render, []);
    NoBreakInSection(s3);
    ConclusionIsOne(|d1|, |d2|, |d3|);
    NoBreakInSection(c);
    FrontMatterCounts();
    BreakCounts();
    JoinCount(FrontMatter(), s1, s2, s3, c, IsBreak);
  }

  lemma JoinStart(f: seq<Block>, s1: seq<Block>, s2: seq<Block>, s3: seq<Block>, c: seq<Block>)
    ensures |f| <= |Join(f, s1, s2, s3, c)| && Join(f, s1, s2, s3, c)[..|f|] == f
  {
  }

  lemma FrontMatterShape()
    ensures |FrontMatter()| == 6 && FrontMatter()[4] == Toc && FrontMatter()[5] == PageBreak
    ensures forall i | 0 <= i < 5 :: !IsBreak(FrontMatter()[i])
  {
  }

  lemma StartsWith(s: seq<Block>, f: seq<Block>)
    requires |f| <= |s| && s[..|f|] == f
    ensures forall i | 0 <= i < |f| :: s[i] == f[i]
  {
    forall i | 0 <= i < |f|
      ensures s[i] == f[i]
    {
      assert s[..|f|][i] == s[i];
    }
  }

  /** The first page break is the one right after the table of contents. */
  lemma TocThenBreak(d1: seq<Element>, d2: seq<Element>, d3: seq<Element>, render: Render, doc: Document)
    requires Assemble(d1, d2, d3, render) == Ok(doc)
    ensures 6 <= |doc.story| && doc.story[4] == Toc && doc.story[5] == PageBreak
    ensures forall i | 0 <= i < 5 :: !IsBreak(doc.story[i])
  {
    JoinStart(FrontMatter(), SectionBlocks(Section1, d1, render, TableBlocks(d1, render).value),
              SectionBlocks(Section2, d2, render, []), SectionBlocks(Section3, d3, render, []),
              ConclusionBlocks(|d1|, |d2|, |d3|));
    FrontMatterShape();
    StartsWith(doc.story, FrontMatter());
  }

  lemma TableSectionTables(d1: seq<Element>, render: Render, table: seq<Block>)
    requires TableBlocks(d1, render) == Ok(table)
    ensures CountWhere(SectionBlocks(Section1, d1, render, table), IsTable) == if HasTable(d1) then 1 else 0
  {
    TableBlocksKinds(d1, render, table);
    var o := SectionOpening(Section1, |d1|);
    var items := ItemBlocks(Section1, d1, render, Cap(|d1|));
    NoTableInTextBlocks(Section1, d1, render);
    CountWhereAppend(o + items, table, IsTable);
    if HasTable(d1) {
      CountWhereSnoc([], table[0], IsTable);
      assert [] + [table[0]] == [table[0]];
      CountWhereSnoc([table[0]], table[1], IsTable);
      assert [table[0]] + [table[1]] == table;
    }
  }

  lemma PlainSectionTables(w: Wording, d: seq<Element>, render: Render)
    ensures CountWhere(SectionBlocks(w, d, render, []), IsTable) == 0
  {
    NoTableInTextBlocks(w, d, render);
    assert SectionBlocks(w, d, render, []) == SectionOpening(w, |d|) + ItemBlocks(w, d, render, Cap(|d|));
  }

  lemma ConclusionTables(n1: nat, n2: nat, n3: nat)
    ensures CountWhere(ConclusionBlocks(n1, n2, n3), IsTable) == 0
  {
    CountWhereNone(ConclusionBlocks(n1, n2, n3), IsTable);
  }

  /** Dataset 1 starting with a record puts one summary table in the story,
      and otherwise the story holds none. */
  lemma TableCount(d1: seq<Element>, d2: seq<Element>, d3: seq<Element>, render: Render, doc: Document)
    requires Assemble(d1, d2, d3, render) == Ok(doc)
    ensures CountWhere(doc.story, IsTable) == if HasTable(d1) then 1 else 0
  {
    var table := TableBlocks(d1, render).value;
    TableSectionTables(d1, render, table);
    PlainSectionTables(Section2, d2, render);
    PlainSectionTables(Section3, d3, render);
    ConclusionTables(|d1|, |d2|, |d3|);
    FrontMatterCounts();
    BreakCounts();
    JoinCount(FrontMatter(), SectionBlocks(Section1, d1, render, table), SectionBlocks(Section2, d2, render, []),
              SectionBlocks(Section3, d3, render, []), ConclusionBlocks(|d1|, |d2|, |d3|), IsTable);
  }

  /** When dataset 1 starts with a record, the summary table built from its
      first five items comes right under the table heading. */
  lemma TableUnderHeading(d1: seq<Element>, d2: seq<Element>, d3: seq<Element>, render: Render, doc: Document)
    requires Assemble(d1, d2, d3, render) == Ok(doc)
    ensures HasTable(d1) ==> exists t ::
      Ok(t) == SummaryTable.SummaryTable(Take(d1, MaxItems), render) && t.Table?
      && Contains(doc.story, [Heading(TableHeading, 1), t])
  {
    if HasTable(d1) {
      var table := TableBlocks(d1, render).value;
      TableBlocksKinds(d1, render, table);
      var o := SectionOpening(Section1, |d1|);
      var items := ItemBlocks(Section1, d1, render, Cap(|d1|));
      assert table[0..|table|] == table;
      ContainsAt(table, table, 0);
      ContainsRight(o + items, table, table);
      ContainsInStory(d1, d2, d3, render, doc, table);
      assert table == [Heading(TableHeading, 1), table[1]];
    }
  }

  lemma NoTableInTextBlocks(w: Wording, d: seq<Element>, render: Render)
    ensures CountWhere(SectionOpening(w, |d|) + ItemBlocks(w, d, render, Cap(|d|)), IsTable) == 0
  {
    var s := SectionOpening(w, |d|) + ItemBlocks(w, d, render, Cap(|d|));
    SectionIsOne(w, d, render, []);
    assert s == SectionBlocks(w, d, render, []);
    ItemBlocksKinds(w, d, render, Cap(|d|));
    forall i | 0 <= i < |s|
      ensures !IsTable(s[i])
    {
      if i >= 4 {
        assert s[i] == ItemBlocks(w, d, render, Cap(|d|))[i - 4];
      }
    }
    CountWhereNone(s, IsTable);
  }

  // ---------------------------------------------------------------------
  // Failure

  lemma TableBlocksFailure(d1: seq<Element>, render: Render)
    ensures TableBlocks(d1, render).Err? <==>
      HasTable(d1) && 0 < |d1[0].fields| && exists k | 0 <= k < |d1| && k < MaxItems :: d1[k].Str?
    ensures TableBlocks(d1, render).Err? ==> TableBlocks(d1, render).message == SummaryTable.NoGetMessage
  {
    if HasTable(d1) {
      var data := Take(d1, MaxItems);
      SummaryTable.TableFailure(data, render);
      assert data[0] == d1[0];
      assert forall k | 0 <= k < |data| :: data[k] == d1[k];
      if exists k | 0 <= k < |d1| && k < MaxItems :: d1[k].Str? {
        var k :| 0 <= k < |d1| && k < MaxItems && d1[k].Str?;
        assert data[k] == d1[k];
      }
    }
  }

  /** Assembly fails exactly when the summary table is built and meets a
      string among the first five items while its header row is non-empty;
      the error is the `AttributeError` of `item.get`. */
  lemma AssembleFailure(d1: seq<Element>, d2: seq<Element>, d3: seq<Element>, render: Render)
    ensures Assemble(d1, d2, d3, render).Err? <==>
      HasTable(d1) && 0 < |d1[0].fields| && exists k | 0 <= k < |d1| && k < MaxItems :: d1[k].Str?
    ensures Assemble(d1, d2, d3, render).Err? ==>
      Assemble(d1, d2, d3, render).message == SummaryTable.NoGetMessage
  {
    TableBlocksFailure(d1, render);
  }
}
