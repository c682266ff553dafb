/** What the assembled story and table of contents look like: the item
    subsections and their cap, the table of contents as the list of the
    story's headings, the page breaks that start each section, the summary
    table, and the counts reported in the prose. */
module StoryProperties {
  import opened Text
  import opened Content
  import SummaryTable
  import opened Story

  // ---------------------------------------------------------------------
  // Item subsections

  lemma {:induction false} ItemBlocksShape(w: Wording, d: seq<Element>, render: Render, n: nat)
    requires n <= |d|
    ensures |ItemBlocks(w, d, render, n)| == 3 * n
    ensures forall j | 0 <= j < n ::
      ItemBlocks(w, d, render, n)[3 * j] == Heading(ItemLabel(w, j + 1), 2)
      && ItemBlocks(w, d, render, n)[3 * j + 1] == Paragraph(render(d[j]), Body)
      && ItemBlocks(w, d, render, n)[3 * j + 2] == Spacer(3)
  {
    if n > 0 {
      ItemBlocksShape(w, d, render, n - 1);
    }
  }

  /** Every item block is a level-2 heading, a body paragraph or a spacer. */
  lemma {:induction false} ItemBlocksKinds(w: Wording, d: seq<Element>, render: Render, n: nat)
    requires n <= |d|
    ensures forall i | 0 <= i < |ItemBlocks(w, d, render, n)| ::
      var b := ItemBlocks(w, d, render, n)[i];
      (b.Heading? && b.level == 2) || (b.Paragraph? && b.style == Body) || b == Spacer(3)
  {
    if n > 0 {
      ItemBlocksKinds(w, d, render, n - 1);
    }
  }

  lemma {:induction false} ItemEntriesShape(w: Wording, n: nat)
    ensures |ItemEntries(w, n)| == n
    ensures forall j | 0 <= j < n :: ItemEntries(w, n)[j] == Entry(2, ItemLabel(w, j + 1))
  {
    if n > 0 {
      ItemEntriesShape(w, n - 1);
    }
  }

  lemma {:induction false} HeadingsOfItems(w: Wording, d: seq<Element>, render: Render, n: nat)
    requires n <= |d|
    ensures Headings(ItemBlocks(w, d, render, n)) == ItemEntries(w, n)
  {
    if n > 0 {
      var prev := ItemBlocks(w, d, render, n - 1);
      var h := Heading(ItemLabel(w, n), 2);
      var p := Paragraph(render(d[n - 1]), Body);
      HeadingsOfItems(w, d, render, n - 1);
      HeadingsSnoc(prev, h);
      HeadingsSnoc(prev + [h], p);
      HeadingsSnoc(prev + [h] + [p], Spacer(3));
      assert prev + [h] + [p] + [Spacer(3)] == ItemBlocks(w, d, render, n);
    }
  }

  /** The labels of the item subsections of a section, "k.2.1 ..." up to "k.2.n ...". */
  function ItemLabels(w: Wording, n: nat): seq<string> {
    seq(n, j requires 0 <= j < n => ItemLabel(w, j + 1))
  }

  lemma {:induction false} LabelsOfItems(w: Wording, n: nat, level: nat)
    ensures Labels(ItemEntries(w, n), level) == if level == 2 then ItemLabels(w, n) else []
  {
    if n > 0 {
      LabelsOfItems(w, n - 1, level);
      assert ItemEntries(w, n) == ItemEntries(w, n - 1) + [Entry(2, ItemLabel(w, n))];
      LabelsSnoc(ItemEntries(w, n - 1), Entry(2, ItemLabel(w, n)), level);
      if level == 2 {
        assert ItemLabels(w, n) == ItemLabels(w, n - 1) + [ItemLabel(w, n)];
      }
    }
  }

  lemma ItemLabelExamples()
    ensures ItemLabel(Section1, 1) == "1.2.1 Item 1"
    ensures ItemLabel(Section2, 5) == "2.2.5 Record 5"
    ensures ItemLabel(Section3, 3) == "3.2.3 Element 3"
  {
    assert ItemLabel(Section1, 1) == "1.2.1 Item 1" by {
      assert NatToString(1) == "1";
    }
    assert ItemLabel(Section2, 5) == "2.2.5 Record 5" by {
      assert NatToString(2) == "2" && NatToString(5) == "5";
    }
    assert ItemLabel(Section3, 3) == "3.2.3 Element 3" by {
      assert NatToString(3) == "3";
    }
  }

  // ---------------------------------------------------------------------
  // The table of contents lists the story's headings

  lemma HeadingsOfFrontMatter()
    ensures Headings(FrontMatter()) == []
  {
    HeadingsNone(FrontMatter());
  }

  lemma {:induction false} HeadingsOfSection(w: Wording, d: seq<Element>, render: Render, extra: seq<Block>)
    ensures Headings(SectionBlocks(w, d, render, extra)) == SectionEntries(w, |d|, Headings(extra))
  {
    var o := SectionOpening(w, |d|);
    var items := ItemBlocks(w, d, render, Cap(|d|));
    assert Headings(o) == [Entry(0, w.title), Entry(1, w.overview)] by {
      HeadingsSnoc([], o[0]);
      assert [] + [o[0]] == [o[0]];
      HeadingsSnoc([o[0]], o[1]);
      assert [o[0]] + [o[1]] == [o[0], o[1]];
      HeadingsSnoc([o[0], o[1]], o[2]);
      assert [o[0], o[1]] + [o[2]] == [o[0], o[1], o[2]];
      HeadingsSnoc([o[0], o[1], o[2]], o[3]);
      assert [o[0], o[1], o[2]] + [o[3]] == o;
    }
    HeadingsAppend(o + items, extra);
    HeadingsAppend(o, items);
    HeadingsOfItems(w, d, render, Cap(|d|));
  }

  lemma HeadingsOfTable(d1: seq<Element>, render: Render, table: seq<Block>)
    requires TableBlocks(d1, render) == Ok(table)
    ensures Headings(table) == TableEntries(d1)
  {
    if HasTable(d1) {
      HeadingsSnoc([], table[0]);
      assert [] + [table[0]] == [table[0]];
      HeadingsSnoc([table[0]], table[1]);
      assert [table[0]] + [table[1]] == table;
    }
  }

  lemma {:induction false} HeadingsOfConclusion(n1: nat, n2: nat, n3: nat)
    ensures Headings(ConclusionBlocks(n1, n2, n3)) == ConclusionEntries()
  {
    var c := ConclusionBlocks(n1, n2, n3);
    HeadingsSnoc([], c[0]);
    assert [] + [c[0]] == [c[0]];
    HeadingsSnoc([c[0]], c[1]);
    assert [c[0]] + [c[1]] == [c[0], c[1]];
    HeadingsSnoc([c[0], c[1]], c[2]);
    assert [c[0], c[1]] + [c[2]] == [c[0], c[1], c[2]];
    HeadingsSnoc([c[0], c[1], c[2]], c[3]);
    assert [c[0], c[1], c[2]] + [c[3]] == c[..4];
    HeadingsSnoc(c[..4], c[4]);
    assert c[..4] + [c[4]] == c;
  }

  lemma PageBreakHasNoHeading()
    ensures Headings([PageBreak]) == []
  {
    HeadingsNone([PageBreak]);
  }

  lemma JoinHeadings(f: seq<Block>, s1: seq<Block>, s2: seq<Block>, s3: seq<Block>, c: seq<Block>)
    ensures Headings(Join(f, s1, s2, s3, c)) ==
      Headings(f) + Headings(s1) + Headings(s2) + Headings(s3) + Headings(c)
  {
    var pb := [PageBreak];
    PageBreakHasNoHeading();
    HeadingsAppend(f + s1 + pb + s2 + pb + s3 + pb, c);
    HeadingsAppend(f + s1 + pb + s2 + pb + s3, pb);
    HeadingsAppend(f + s1 + pb + s2 + pb, s3);
    HeadingsAppend(f + s1 + pb + s2, pb);
    HeadingsAppend(f + s1 + pb, s2);
    HeadingsAppend(f + s1, pb);
    HeadingsAppend(f, s1);
  }

  /** The table of contents holds exactly the story's headings, with their
      levels, in story order: every `addEntry` accompanies the paragraph it
      points to. */
  lemma IndexIsHeadings(d1: seq<Element>, d2: seq<Element>, d3: seq<Element>, render: Render, doc: Document)
    requires Assemble(d1, d2, d3, render) == Ok(doc)
    ensures doc.index == Headings(doc.story)
  {
    var table := TableBlocks(d1, render).value;
    var s1 := SectionBlocks(Section1, d1, render, table);
    var s2 := SectionBlocks(Section2, d2, render, []);
    var s3 := SectionBlocks(Section3, d3, render, []);
    var c := ConclusionBlocks(|d1|, |d2|, |d3|);
    var e1 := SectionEntries(Section1, |d1|, TableEntries(d1));
    var e2 := SectionEntries(Section2, |d2|, []);
    var e3 := SectionEntries(Section3, |d3|, []);
    assert Headings(s1) == e1 by {
      HeadingsOfTable(d1, render, table);
      HeadingsOfSection(Section1, d1, render, table);
    }
    assert Headings(s2) == e2 && Headings(s3) == e3 by {
      assert Headings([]) == [];
      HeadingsOfSection(Section2, d2, render, []);
      HeadingsOfSection(Section3, d3, render, []);
    }
    HeadingsOfFrontMatter();
    JoinHeadings(FrontMatter(), s1, s2, s3, c);
    assert [] + e1 == e1;
    HeadingsOfConclusion(|d1|, |d2|, |d3|);
  }

  // ---------------------------------------------------------------------
  // The table of contents level by level

  lemma LabelsPair(a: Entry, b: Entry, level: nat)
    ensures Labels([a, b], level) ==
      (if a.level == level then [a.text] else []) + (if b.level == level then [b.text] else [])
  {
    LabelsSnoc([], a, level);
    assert [] + [a] == [a];
    LabelsSnoc([a], b, level);
    assert [a] + [b] == [a, b];
  }

  lemma SectionEntriesLabels(w: Wording, n: nat, extra: seq<Entry>, level: nat)
    ensures Labels(SectionEntries(w, n, extra), level) ==
      (if level == 0 then [w.title] else [])
      + (if level == 1 then [w.overview] else [])
      + (if level == 2 then ItemLabels(w, Cap(n)) else [])
      + Labels(extra, level)
  {
    var heads := [Entry(0, w.title), Entry(1, w.overview)];
    LabelsAppend(heads + ItemEntries(w, Cap(n)), extra, level);
    LabelsAppend(heads, ItemEntries(w, Cap(n)), level);
    LabelsPair(heads[0], heads[1], level);
    LabelsOfItems(w, Cap(n), level);
  }

  lemma SectionLevel0(w: Wording, n: nat, extra: seq<Entry>)
    ensures Labels(SectionEntries(w, n, extra), 0) == [w.title] + Labels(extra, 0)
  {
    SectionEntriesLabels(w, n, extra, 0);
  }

  lemma SectionLevel1(w: Wording, n: nat, extra: seq<Entry>)
    ensures Labels(SectionEntries(w, n, extra), 1) == [w.overview] + Labels(extra, 1)
  {
    SectionEntriesLabels(w, n, extra, 1);
  }

  lemma SectionLevel2(w: Wording, n: nat, extra: seq<Entry>)
    ensures Labels(SectionEntries(w, n, extra), 2) == ItemLabels(w, Cap(n)) + Labels(extra, 2)
  {
    SectionEntriesLabels(w, n, extra, 2);
  }

  lemma SectionLevelAbove2(w: Wording, n: nat, extra: seq<Entry>, level: nat)
    requires level > 2
    ensures Labels(SectionEntries(w, n, extra), level) == Labels(extra, level)
  {
    SectionEntriesLabels(w, n, extra, level);
  }

  lemma ConclusionLevels(level: nat)
    ensures Labels(ConclusionEntries(), level) ==
      (if level == 0 then [ConclusionHeading] else []) + (if level == 1 then [StatisticsHeading] else [])
  {
    LabelsPair(Entry(0, ConclusionHeading), Entry(1, StatisticsHeading), level);
  }

  lemma NoLabels(level: nat)
    ensures Labels([], level) == []
  {
  }

  lemma LabelsOfTable(d1: seq<Element>, level: nat)
    ensures Labels(TableEntries(d1), level) == if level == 1 && HasTable(d1) then [TableHeading] else []
  {
    if HasTable(d1) {
      LabelsSnoc([], Entry(1, TableHeading), level);
      assert [] + [Entry(1, TableHeading)] == [Entry(1, TableHeading)];
    }
  }

  /** The labels of four concatenated lists at a level, list by list. */
  lemma LabelsOfFour(a: seq<Entry>, b: seq<Entry>, e: seq<Entry>, c: seq<Entry>, level: nat)
    ensures Labels(a + b + e + c, level) == Labels(a, level) + Labels(b, level) + Labels(e, level) + Labels(c, level)
  {
    LabelsAppend(a + b + e, c, level);
    LabelsAppend(a + b, e, level);
    LabelsAppend(a, b, level);
  }

  // The following lemmas give the labels of `Index` at each level for any
  // wording, so that the proofs keep the section texts abstract.

  lemma Level0Of(w1: Wording, w2: Wording, w3: Wording, n1: nat, n2: nat, n3: nat,
                 t: seq<Entry>, c: seq<Entry>, last: string)
    requires Labels(t, 0) == [] && Labels(c, 0) == [last]
    ensures Labels(SectionEntries(w1, n1, t) + SectionEntries(w2, n2, []) + SectionEntries(w3, n3, []) + c, 0) ==
      [w1.title, w2.title, w3.title, last]
  {
    LabelsOfFour(SectionEntries(w1, n1, t), SectionEntries(w2, n2, []), SectionEntries(w3, n3, []), c, 0);
    NoLabels(0);
    SectionLevel0(w1, n1, t);
    SectionLevel0(w2, n2, []);
    SectionLevel0(w3, n3, []);
  }

  lemma Level1Of(w1: Wording, w2: Wording, w3: Wording, n1: nat, n2: nat, n3: nat,
                 t: seq<Entry>, c: seq<Entry>, tl: seq<string>, last: string)
    requires Labels(t, 1) == tl && Labels(c, 1) == [last]
    ensures Labels(SectionEntries(w1, n1, t) + SectionEntries(w2, n2, []) + SectionEntries(w3, n3, []) + c, 1) ==
      [w1.overview] + tl + [w2.overview, w3.overview, last]
  {
    LabelsOfFour(SectionEntries(w1, n1, t), SectionEntries(w2, n2, []), SectionEntries(w3, n3, []), c, 1);
    NoLabels(1);
    SectionLevel1(w1, n1, t);
    SectionLevel1(w2, n2, []);
    SectionLevel1(w3, n3, []);
    assert [w1.overview] + tl + [w2.overview] + [w3.overview] + [last]
      == [w1.overview] + tl + [w2.overview, w3.overview, last];
  }

  lemma Level2Of(w1: Wording, w2: Wording, w3: Wording, n1: nat, n2: nat, n3: nat,
                 t: seq<Entry>, c: seq<Entry>)
    requires Labels(t, 2) == [] && Labels(c, 2) == []
    ensures Labels(SectionEntries(w1, n1, t) + SectionEntries(w2, n2, []) + SectionEntries(w3, n3, []) + c, 2) ==
      ItemLabels(w1, Cap(n1)) + ItemLabels(w2, Cap(n2)) + ItemLabels(w3, Cap(n3))
  {
    LabelsOfFour(SectionEntries(w1, n1, t), SectionEntries(w2, n2, []), SectionEntries(w3, n3, []), c, 2);
    NoLabels(2);
    SectionLevel2(w1, n1, t);
    SectionLevel2(w2, n2, []);
    SectionLevel2(w3, n3, []);
  }

  lemma ItemLabelsLength(w1: Wording, w2: Wording, w3: Wording, k1: nat, k2: nat, k3: nat)
    ensures |ItemLabels(w1, k1) + ItemLabels(w2, k2) + ItemLabels(w3, k3)| == k1 + k2 + k3
  {
  }

  lemma LevelAboveOf(w1: Wording, w2: Wording, w3: Wording, n1: nat, n2: nat, n3: nat,
                     t: seq<Entry>, c: seq<Entry>, level: nat)
    requires level > 2 && Labels(t, level) == [] && Labels(c, level) == []
    ensures Labels(SectionEntries(w1, n1, t) + SectionEntries(w2, n2, []) + SectionEntries(w3, n3, []) + c, level) == []
  {
    LabelsOfFour(SectionEntries(w1, n1, t), SectionEntries(w2, n2, []), SectionEntries(w3, n3, []), c, level);
    NoLabels(level);
    SectionLevelAbove2(w1, n1, t, level);
    SectionLevelAbove2(w2, n2, [], level);
    SectionLevelAbove2(w3, n3, [], level);
  }

  /** The four section titles, in order, are the level-0 entries. */
  lemma IndexLevel0(d1: seq<Element>, d2: seq<Element>, d3: seq<Element>)
    ensures Labels(Index(d1, d2, d3), 0) ==
      [Section1.title, Section2.title, Section3.title, ConclusionHeading]
  {
    LabelsOfTable(d1, 0);
    ConclusionLevels(0);
    Level0Of(Section1, Section2, Section3, |d1|, |d2|, |d3|, TableEntries(d1), ConclusionEntries(), ConclusionHeading);
  }

  /** The level-1 entries: the four fixed subsections, and the table heading
      exactly when dataset 1 starts with a record. */
  lemma IndexLevel1(d1: seq<Element>, d2: seq<Element>, d3: seq<Element>)
    ensures Labels(Index(d1, d2, d3), 1) ==
      [Section1.overview] + (if HasTable(d1) then [TableHeading] else [])
      + [Section2.overview, Section3.overview, StatisticsHeading]
  {
    LabelsOfTable(d1, 1);
    ConclusionLevels(1);
    Level1Of(Section1, Section2, Section3, |d1|, |d2|, |d3|, TableEntries(d1), ConclusionEntries(),
             if HasTable(d1) then [TableHeading] else [], StatisticsHeading);
  }

  /** The level-2 entries are the item subsections of sections 1 to 3, at most
      five per section. */
  lemma IndexLevel2(d1: seq<Element>, d2: seq<Element>, d3: seq<Element>)
    ensures Labels(Index(d1, d2, d3), 2) ==
      ItemLabels(Section1, Cap(|d1|)) + ItemLabels(Section2, Cap(|d2|)) + ItemLabels(Section3, Cap(|d3|))
    ensures |Labels(Index(d1, d2, d3), 2)| == Cap(|d1|) + Cap(|d2|) + Cap(|d3|)
  {
    LabelsOfTable(d1, 2);
    ConclusionLevels(2);
    Level2Of(Section1, Section2, Section3, |d1|, |d2|, |d3|, TableEntries(d1), ConclusionEntries());
    ItemLabelsLength(Section1, Section2, Section3, Cap(|d1|), Cap(|d2|), Cap(|d3|));
  }

  /** No entry has a level above 2: the table of contents registers three
      level styles. */
  lemma IndexLevelsAbove2(d1: seq<Element>, d2: seq<Element>, d3: seq<Element>, level: nat)
    requires level > 2
    ensures Labels(Index(d1, d2, d3), level) == []
  {
    LabelsOfTable(d1, level);
    ConclusionLevels(level);
    LevelAboveOf(Section1, Section2, Section3, |d1|, |d2|, |d3|, TableEntries(d1), ConclusionEntries(), level);
  }

  /** Every entry of the table of contents is at level 0, 1 or 2. */
  lemma IndexLevelsBounded(d1: seq<Element>, d2: seq<Element>, d3: seq<Element>)
    ensures forall i | 0 <= i < |Index(d1, d2, d3)| :: Index(d1, d2, d3)[i].level <= 2
  {
    var index := Index(d1, d2, d3);
    forall i | 0 <= i < |index|
      ensures index[i].level <= 2
    {
      if index[i].level > 2 {
        IndexLevelsAbove2(d1, d2, d3, index[i].level);
        LabelsNone(index, index[i].level);
      }
    }
  }
}
