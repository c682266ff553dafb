/** The values the document generator works on: the input elements of a
    dataset, the blocks of the story handed to the layout engine, and the
    entries of the table of contents. */
module Content {

  datatype Option<T> = None | Some(value: T)

  /** Outcome of a step that can raise; `message` is the exception's text. */
  datatype Result<T> = Ok(value: T) | Err(message: string)

  /** One element of an input dataset as decoded from JSON: a string, or an
      object whose key/value pairs are kept in their insertion order. */
  datatype Element = Str(s: string) | Rec(fields: seq<(string, Element)>)

  /** Python's `str(...)` of an element; left uninterpreted. */
  type Render = Element -> string

  /** The paragraph styles the generator registers. */
  datatype Style = Title | SectionTitle | SubSectionTitle | Body

  /** A flowable of the story. A `Heading` is a paragraph in the section
      (level 0) or subsection (levels 1 and 2) style that is also registered
      with the table of contents; `Toc` is the table of contents itself.
      Spacer heights are in millimetres. */
  datatype Block =
    | Paragraph(text: string, style: Style)
    | Heading(text: string, level: nat)
    | Spacer(heightMm: nat)
    | Table(rows: seq<seq<string>>)
    | Toc
    | PageBreak

  /** An entry of the table of contents: nesting level and label text. */
  datatype Entry = Entry(level: nat, text: string)

  /** What one generation call produces before layout. */
  datatype Document = Document(story: seq<Block>, index: seq<Entry>)

  function Take<T>(s: seq<T>, n: nat): (t: seq<T>)
    ensures |t| == if |s| <= n then |s| else n
    ensures t == s[..|t|]
  {
    if |s| <= n then s else s[..n]
  }

  lemma AppendAssoc<T>(a: seq<T>, b: seq<T>, c: seq<T>)
    ensures (a + b) + c == a + (b + c)
  {
  }

  /** The index entries that the `Heading` blocks of `blocks` stand for, in order. */
  function Headings(blocks: seq<Block>): seq<Entry> {
    if |blocks| == 0 then []
    else
      var rest := Headings(blocks[..|blocks| - 1]);
      match blocks[|blocks| - 1]
      case Heading(text, level) => rest + [Entry(level, text)]
      case _ => rest
  }

  lemma {:induction false} HeadingsAppend(a: seq<Block>, b: seq<Block>)
    ensures Headings(a + b) == Headings(a) + Headings(b)
  {
    if |b| == 0 {
      assert a + b == a;
    } else {
      var c := a + b;
      assert c[..|c| - 1] == a + b[..|b| - 1];
      HeadingsAppend(a, b[..|b| - 1]);
    }
  }

  lemma {:induction false} HeadingsSnoc(blocks: seq<Block>, b: Block)
    ensures Headings(blocks + [b]) == Headings(blocks) + (if b.Heading? then [Entry(b.level, b.text)] else [])
  {
    assert (blocks + [b])[..|blocks|] == blocks;
  }

  lemma {:induction false} HeadingsNone(blocks: seq<Block>)
    requires forall i | 0 <= i < |blocks| :: !blocks[i].Heading?
    ensures Headings(blocks) == []
  {
    if |blocks| > 0 {
      var init := blocks[..|blocks| - 1];
      assert forall i | 0 <= i < |init| :: init[i] == blocks[i];
      HeadingsNone(init);
    }
  }

  /** Labels of the entries at `level`, in order. */
  function Labels(entries: seq<Entry>, level: nat): seq<string> {
    if |entries| == 0 then []
    else
      Labels(entries[..|entries| - 1], level)
      + (if entries[|entries| - 1].level == level then [entries[|entries| - 1].text] else [])
  }

  lemma {:induction false} LabelsAppend(a: seq<Entry>, b: seq<Entry>, level: nat)
    ensures Labels(a + b, level) == Labels(a, level) + Labels(b, level)
  {
    if |b| == 0 {
      assert a + b == a;
    } else {
      var c := a + b;
      assert c[..|c| - 1] == a + b[..|b| - 1];
      LabelsAppend(a, b[..|b| - 1], level);
    }
  }

  lemma {:induction false} LabelsSnoc(entries: seq<Entry>, e: Entry, level: nat)
    ensures Labels(entries + [e], level) == Labels(entries, level) + (if e.level == level then [e.text] else [])
  {
    assert (entries + [e])[..|entries|] == entries;
  }

  lemma {:induction false} LabelsNone(entries: seq<Entry>, level: nat)
    ensures Labels(entries, level) == [] <==> forall i | 0 <= i < |entries| :: entries[i].level != level
  {
    if |entries| > 0 {
      var init := entries[..|entries| - 1];
      LabelsNone(init, level);
      assert forall i | 0 <= i < |init| :: init[i] == entries[i];
    }
  }

  /** Number of blocks that satisfy `p`. */
  function CountWhere(blocks: seq<Block>, p: Block -> bool): nat {
    if |blocks| == 0 then 0
    else CountWhere(blocks[..|blocks| - 1], p) + (if p(blocks[|blocks| - 1]) then 1 else 0)
  }

  lemma {:induction false} CountWhereAppend(a: seq<Block>, b: seq<Block>, p: Block -> bool)
    ensures CountWhere(a + b, p) == CountWhere(a, p) + CountWhere(b, p)
  {
    if |b| == 0 {
      assert a + b == a;
    } else {
      var c := a + b;
      assert c[..|c| - 1] == a + b[..|b| - 1];
      CountWhereAppend(a, b[..|b| - 1], p);
    }
  }

  lemma {:induction false} CountWhereSnoc(blocks: seq<Block>, b: Block, p: Block -> bool)
    ensures CountWhere(blocks + [b], p) == CountWhere(blocks, p) + (if p(b) then 1 else 0)
  {
    assert (blocks + [b])[..|blocks|] == blocks;
  }

  lemma {:induction false} CountWhereNone(blocks: seq<Block>, p: Block -> bool)
    ensures CountWhere(blocks, p) == 0 <==> forall i | 0 <= i < |blocks| :: !p(blocks[i])
  {
    if |blocks| > 0 {
      var init := blocks[..|blocks| - 1];
      CountWhereNone(init, p);
      assert forall i | 0 <= i < |init| :: init[i] == blocks[i];
    }
  }
}
