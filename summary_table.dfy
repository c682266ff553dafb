/** The summary table of a list of records: a header row of at most three
    keys of the first record, then at most five body rows whose cells are the
    rendered values cut to thirty characters. */
module SummaryTable {
  import opened Text
  import opened Content

  const MaxColumns := 3
  const MaxRows := 5
  const MaxCellWidth := 30

  /** The text of the AttributeError raised by `item.get` on a string item. */
  const NoGetMessage := "'str' object has no attribute 'get'"

  /** The keys of a record, in insertion order (`list(d.keys())`). */
  function Keys(fields: seq<(string, Element)>): seq<string> {
    seq(|fields|, i requires 0 <= i < |fields| => fields[i].0)
  }

  /** `d.get(key)`: the value paired with `key`, if any. */
  function Lookup(fields: seq<(string, Element)>, key: string): Option<Element> {
    if |fields| == 0 then None
    else if fields[0].0 == key then Some(fields[0].1)
    else Lookup(fields[1..], key)
  }

  lemma {:induction false} LookupSpec(fields: seq<(string, Element)>, key: string)
    ensures Lookup(fields, key).None? <==> key !in Keys(fields)
    ensures Lookup(fields, key).Some? ==> (key, Lookup(fields, key).value) in fields
  {
    if |fields| > 0 {
      assert Keys(fields) == [fields[0].0] + Keys(fields[1..]);
      if fields[0].0 != key {
        LookupSpec(fields[1..], key);
      }
    }
  }

  /** The header row built from the first record. */
  function Headers(first: seq<(string, Element)>): seq<string> {
    Take(Keys(first), MaxColumns)
  }

  /** `str(item.get(h, ''))[:30]` for a record item. */
  function Cell(fields: seq<(string, Element)>, h: string, render: Render): (c: string)
    ensures |c| <= MaxCellWidth
    ensures h !in Keys(fields) ==> c == ""
  {
    LookupSpec(fields, h);
    match Lookup(fields, h)
    case None => ""
    case Some(v) => Take(render(v), MaxCellWidth)
  }

  lemma CellSpec(fields: seq<(string, Element)>, h: string, render: Render)
    ensures |Cell(fields, h, render)| <= MaxCellWidth
    ensures h !in Keys(fields) ==> Cell(fields, h, render) == ""
    ensures h in Keys(fields) ==>
      exists v :: (h, v) in fields
        && |Cell(fields, h, render)| == (if |render(v)| <= MaxCellWidth then |render(v)| else MaxCellWidth)
        && Cell(fields, h, render) == render(v)[..|Cell(fields, h, render)|]
  {
    LookupSpec(fields, h);
  }

  /** One body row: the list comprehension over the headers. A string item
      raises as soon as `get` is called on it, that is, unless there are no
      headers at all. */
  function Row(item: Element, headers: seq<string>, render: Render): (r: Result<seq<string>>)
    ensures r.Err? <==> 0 < |headers| && item.Str?
    ensures r.Err? ==> r.message == NoGetMessage
    ensures r.Ok? ==> |r.value| == |headers| && forall j | 0 <= j < |headers| :: |r.value[j]| <= MaxCellWidth
  {
    if |headers| == 0 then Ok([])
    else match item
      case Str(_) => Err(NoGetMessage)
      case Rec(fields) => Ok(seq(|headers|, j requires 0 <= j < |headers| => Cell(fields, headers[j], render)))
  }

  /** The body rows of `items`, in order; the first failing row aborts. */
  function Rows(items: seq<Element>, headers: seq<string>, render: Render): Result<seq<seq<string>>> {
    if |items| == 0 then Ok([])
    else match Rows(items[..|items| - 1], headers, render)
      case Err(m) => Err(m)
      case Ok(rows) =>
        match Row(items[|items| - 1], headers, render)
        case Err(m) => Err(m)
        case Ok(row) => Ok(rows + [row])
  }

  lemma {:induction false} RowsSpec(items: seq<Element>, headers: seq<string>, render: Render)
    ensures Rows(items, headers, render).Err? <==>
      exists k | 0 <= k < |items| :: Row(items[k], headers, render).Err?
    ensures Rows(items, headers, render).Err? ==> Rows(items, headers, render).message == NoGetMessage
    ensures Rows(items, headers, render).Ok? ==>
      |Rows(items, headers, render).value| == |items|
      && forall k | 0 <= k < |items| :: Rows(items, headers, render).value[k] == Row(items[k], headers, render).value
  {
    if |items| > 0 {
      var init := items[..|items| - 1];
      RowsSpec(init, headers, render);
      assert forall k | 0 <= k < |init| :: init[k] == items[k];
    }
  }

  /** `create_summary_table(data)`: a spacer of height 0 for an empty list or
      one whose first element is not a record, otherwise the table whose
      first row is the header row. */
  function SummaryTable(data: seq<Element>, render: Render): (r: Result<Block>)
    ensures r.Err? ==> r.message == NoGetMessage
    ensures r.Ok? ==> r.value.Table? || r.value == Spacer(0)
    ensures r.Ok? && r.value.Table? ==>
      1 < |r.value.rows| <= 1 + MaxRows && |r.value.rows[0]| <= MaxColumns
  {
    if |data| == 0 || !data[0].Rec? then Ok(Spacer(0))
    else
      var headers := Headers(data[0].fields);
      RowsSpec(Take(data, MaxRows), headers, render);
      match Rows(Take(data, MaxRows), headers, render)
      case Err(m) => Err(m)
      case Ok(rows) => Ok(Table([headers] + rows))
  }

  /** The imperative builder: the header row first, then one row per item. */
  method CreateSummaryTable(data: seq<Element>, render: Render) returns (r: Result<Block>)
    ensures r == SummaryTable(data, render)
  {
    if |data| == 0 || !data[0].Rec? {
      return Ok(Spacer(0));
    }
    var headers := Headers(data[0].fields);
    var tableData := [headers];
    var items := Take(data, MaxRows);
    var i := 0;
    assert items[..0] == [] && tableData[1..] == [];
    while i < |items|
      invariant 0 <= i <= |items|
      invariant 1 <= |tableData| && tableData[0] == headers
      invariant Rows(items[..i], headers, render) == Ok(tableData[1..])
    {
      var row := Row(items[i], headers, render);
      assert items[..i + 1][..i] == items[..i];
      if row.Err? {
        RowsSpec(items, headers, render);
        return Err(row.message);
      }
      assert Rows(items[..i + 1], headers, render) == Ok(tableData[1..] + [row.value]);
      tableData := tableData + [row.value];
      assert tableData[1..] == tableData[1..|tableData| - 1] + [row.value];
      i := i + 1;
    }
    assert items[..i] == items;
    assert tableData == [headers] + tableData[1..];
    return Ok(Table(tableData));
  }

  lemma SpacerFallback(data: seq<Element>, render: Render)
    ensures SummaryTable(data, render) == Ok(Spacer(0)) <==> |data| == 0 || !data[0].Rec?
  {
  }

  /** The shape of a table that was built: header row, row count, row width,
      cell width and what each cell holds. */
  lemma TableShape(data: seq<Element>, render: Render, rows: seq<seq<string>>)
    requires SummaryTable(data, render) == Ok(Table(rows))
    ensures |data| > 0 && data[0].Rec?
    ensures rows[0] == Keys(data[0].fields)[..|rows[0]|]
    ensures |rows[0]| == if |data[0].fields| <= MaxColumns then |data[0].fields| else MaxColumns
    ensures |rows| == 1 + (if |data| <= MaxRows then |data| else MaxRows)
    ensures forall k | 1 <= k < |rows| :: |rows[k]| == |rows[0]|
    ensures 0 < |rows[0]| ==> forall k | 0 <= k < |rows| - 1 :: data[k].Rec?
    ensures forall k, j | 1 <= k < |rows| && 0 <= j < |rows[k]| ::
      data[k - 1].Rec? && rows[k][j] == Cell(data[k - 1].fields, rows[0][j], render)
    ensures forall k, j | 1 <= k < |rows| && 0 <= j < |rows[k]| :: |rows[k][j]| <= MaxCellWidth
  {
    var headers := Headers(data[0].fields);
    var items := Take(data, MaxRows);
    RowsSpec(items, headers, render);
    var body := Rows(items, headers, render).value;
    assert rows == [headers] + body;
    forall k | 1 <= k < |rows|
      ensures |rows[k]| == |rows[0]|
      ensures 0 < |rows[0]| ==> data[k - 1].Rec?
    {
      assert rows[k] == body[k - 1] == Row(items[k - 1], headers, render).value;
      assert items[k - 1] == data[k - 1];
      assert Row(items[k - 1], headers, render).Ok?;
    }
    forall k, j | 1 <= k < |rows| && 0 <= j < |rows[k]|
      ensures data[k - 1].Rec? && rows[k][j] == Cell(data[k - 1].fields, rows[0][j], render)
      ensures |rows[k][j]| <= MaxCellWidth
    {
      assert rows[k] == Row(items[k - 1], headers, render).value;
      assert items[k - 1] == data[k - 1];
      CellSpec(data[k - 1].fields, rows[0][j], render);
    }
  }

  /** The builder raises exactly when a string item meets a non-empty header
      row among the first five items. */
  lemma TableFailure(data: seq<Element>, render: Render)
    ensures SummaryTable(data, render).Err? <==>
      |data| > 0 && data[0].Rec? && 0 < |data[0].fields|
      && exists k | 0 <= k < |data| && k < MaxRows :: data[k].Str?
    ensures SummaryTable(data, render).Err? ==> SummaryTable(data, render).message == NoGetMessage
  {
    if |data| > 0 && data[0].Rec? {
      var headers := Headers(data[0].fields);
      var items := Take(data, MaxRows);
      RowsSpec(items, headers, render);
      assert |headers| > 0 <==> 0 < |data[0].fields|;
      if SummaryTable(data, render).Err? {
        var k :| 0 <= k < |items| && Row(items[k], headers, render).Err?;
        assert items[k] == data[k];
      }
      if 0 < |data[0].fields| && exists k | 0 <= k < |data| && k < MaxRows :: data[k].Str? {
        var k :| 0 <= k < |data| && k < MaxRows && data[k].Str?;
        assert items[k] == data[k];
        assert Row(items[k], headers, render).Err?;
      }
    }
  }
}
