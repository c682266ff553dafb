/** The `POST /api/generate-pdf` endpoint: it checks the request body, builds
    the document from the three datasets, and answers with the PDF file or
    with a JSON error and a status code. */
module Api {
  import opened Content
  import opened Story
  import StoryProperties
  import StoryLayout
  import SummaryTable

  /** The decoded JSON body of the request: an object whose members are
      element lists, or some other JSON value, known by its Python type name
      and truthiness (`null`, `[]`, `""`, `0` and `false` are falsy). */
  datatype JsonBody =
    | Object(members: map<string, seq<Element>>)
    | NotObject(typeName: string, truthy: bool)

  /** What the endpoint's checks make of a body before any PDF work. */
  datatype Validation =
    | Rejected(message: string)
    | Raised(message: string)
    | Accepted(d1: seq<Element>, d2: seq<Element>, d3: seq<Element>)

  /** The HTTP answer: the PDF file under its download name, or a JSON body
      `{"error": message}` with a status code. */
  datatype Response =
    | PdfFile(doc: Document, downloadName: string)
    | Error(status: nat, message: string)

  const NoDataMessage := "No data provided"
  const NoDatasetMessage := "At least one data set must be provided"

  /** `data.get(key, [])`. */
  function Get(members: map<string, seq<Element>>, key: string): (r: seq<Element>)
    ensures key in members ==> r == members[key]
    ensures key !in members ==> r == []
  {
    if key in members then members[key] else []
  }

  predicate Falsy(body: JsonBody) {
    match body
    case Object(members) => members == map[]
    case NotObject(_, truthy) => !truthy
  }

  /** The checks in front of the PDF work, in the endpoint's order. */
  function Validate(body: JsonBody): (v: Validation)
    ensures v.Rejected? <==> Falsy(body) || (body.Object? && Get(body.members, "dataset1") == [] && Get(body.members, "dataset2") == [] && Get(body.members, "dataset3") == [])
    ensures v.Rejected? ==> v.message == NoDataMessage || v.message == NoDatasetMessage
    ensures v.Raised? <==> body.NotObject? && body.truthy
    ensures v.Accepted? ==> v.d1 != [] || v.d2 != [] || v.d3 != []
  {
    if Falsy(body) then Rejected(NoDataMessage)
    else match body
      case NotObject(typeName, _) => Raised("'" + typeName + "' object has no attribute 'get'")
      case Object(members) =>
        var d1, d2, d3 := Get(members, "dataset1"), Get(members, "dataset2"), Get(members, "dataset3");
        if d1 == [] && d2 == [] && d3 == [] then Rejected(NoDatasetMessage)
        else Accepted(d1, d2, d3)
  }

  /** The file name a request made at `timestamp` downloads as. */
  function DownloadName(timestamp: string): (name: string)
    ensures |name| == 13 + |timestamp| + 4
    ensures name[..13] == "poc_document_" && name[13..|name| - 4] == timestamp && name[|name| - 4..] == ".pdf"
  {
    "poc_document_" + timestamp + ".pdf"
  }

  /** The endpoint. The clock reading is `timestamp`; `layoutFailure` is the
      text of the exception, if any, that the layout engine raises while
      writing the file. */
  function GeneratePdfApi(body: JsonBody, render: Render, timestamp: string, layoutFailure: Option<string>): (r: Response)
    ensures r.Error? ==> r.status == 400 || r.status == 500
    ensures r.PdfFile? ==> Validate(body).Accepted? && layoutFailure.None? && r.downloadName == DownloadName(timestamp)
  {
    match Validate(body)
    case Rejected(m) => Error(400, m)
    case Raised(m) => Error(500, m)
    case Accepted(d1, d2, d3) =>
      match Assemble(d1, d2, d3, render)
      case Err(m) => Error(500, m)
      case Ok(doc) =>
        if layoutFailure.Some? then Error(500, layoutFailure.value)
        else PdfFile(doc, DownloadName(timestamp))
  }

  /** A body is accepted exactly when it is an object naming at least one
      non-empty dataset, and the datasets handed on are its members, with
      missing ones empty. */
  lemma AcceptedExactly(body: JsonBody)
    ensures Validate(body).Accepted? <==>
      body.Object? && (Get(body.members, "dataset1") != [] || Get(body.members, "dataset2") != [] || Get(body.members, "dataset3") != [])
    ensures Validate(body).Accepted? ==>
      Validate(body) == Accepted(Get(body.members, "dataset1"), Get(body.members, "dataset2"), Get(body.members, "dataset3"))
  {
  }

  /** The two 400 answers, and that they do not depend on anything but the body. */
  lemma BadRequests(body: JsonBody, render: Render, timestamp: string, layoutFailure: Option<string>)
    ensures Falsy(body) ==> GeneratePdfApi(body, render, timestamp, layoutFailure) == Error(400, NoDataMessage)
    ensures body.Object? && body.members != map[]
      && Get(body.members, "dataset1") == [] && Get(body.members, "dataset2") == [] && Get(body.members, "dataset3") == []
      ==> GeneratePdfApi(body, render, timestamp, layoutFailure) == Error(400, NoDatasetMessage)
    ensures GeneratePdfApi(body, render, timestamp, layoutFailure).Error? && GeneratePdfApi(body, render, timestamp, layoutFailure).status == 400
      <==> Validate(body).Rejected?
  {
  }

  /** A 400 carries one of the two fixed messages (that every error answer is
      a 400 or a 500 is the contract of `GeneratePdfApi` itself). */
  lemma StatusCodes(body: JsonBody, render: Render, timestamp: string, layoutFailure: Option<string>)
    ensures GeneratePdfApi(body, render, timestamp, layoutFailure).Error? && GeneratePdfApi(body, render, timestamp, layoutFailure).status == 400 ==>
      GeneratePdfApi(body, render, timestamp, layoutFailure).message == NoDataMessage
      || GeneratePdfApi(body, render, timestamp, layoutFailure).message == NoDatasetMessage
  {
  }

  /** A truthy body that is not an object fails on `data.get` with a 500. */
  lemma NonObjectBody(typeName: string, render: Render, timestamp: string, layoutFailure: Option<string>)
    ensures GeneratePdfApi(NotObject(typeName, true), render, timestamp, layoutFailure)
      == Error(500, "'" + typeName + "' object has no attribute 'get'")
  {
  }

  /** For a non-empty body, members other than the three datasets do not
      change the answer (an empty body is falsy, so whether there are any
      members at all does). */
  lemma OtherMembersIgnored(m1: map<string, seq<Element>>, m2: map<string, seq<Element>>,
                            render: Render, timestamp: string, layoutFailure: Option<string>)
    requires m1 != map[] && m2 != map[]
    requires forall key | key in {"dataset1", "dataset2", "dataset3"} :: Get(m1, key) == Get(m2, key)
    ensures GeneratePdfApi(Object(m1), render, timestamp, layoutFailure) == GeneratePdfApi(Object(m2), render, timestamp, layoutFailure)
  {
    assert Get(m1, "dataset1") == Get(m2, "dataset1");
    assert Get(m1, "dataset2") == Get(m2, "dataset2");
    assert Get(m1, "dataset3") == Get(m2, "dataset3");
  }

  /** The file is sent exactly when the body is accepted, the story can be
      assembled and the layout engine does not raise; it is then the
      assembled document under the timestamped name. */
  lemma PdfSentExactly(body: JsonBody, render: Render, timestamp: string, layoutFailure: Option<string>)
    ensures GeneratePdfApi(body, render, timestamp, layoutFailure).PdfFile? <==>
      Validate(body).Accepted?
      && Assemble(Validate(body).d1, Validate(body).d2, Validate(body).d3, render).Ok?
      && layoutFailure.None?
    ensures GeneratePdfApi(body, render, timestamp, layoutFailure).PdfFile? ==>
      GeneratePdfApi(body, render, timestamp, layoutFailure)
        == PdfFile(Assemble(Validate(body).d1, Validate(body).d2, Validate(body).d3, render).value, DownloadName(timestamp))
  {
  }

  /** Any exception raised while building the document is answered with a
      500 whose message is the exception's text. */
  lemma ServerErrors(body: JsonBody, render: Render, timestamp: string, layoutFailure: Option<string>)
    requires Validate(body).Accepted?
    ensures Assemble(Validate(body).d1, Validate(body).d2, Validate(body).d3, render).Err? ==>
      GeneratePdfApi(body, render, timestamp, layoutFailure)
        == Error(500, Assemble(Validate(body).d1, Validate(body).d2, Validate(body).d3, render).message)
    ensures Assemble(Validate(body).d1, Validate(body).d2, Validate(body).d3, render).Ok? && layoutFailure.Some? ==>
      GeneratePdfApi(body, render, timestamp, layoutFailure) == Error(500, layoutFailure.value)
  {
  }

  /** The only way the document itself fails: the first dataset's leading item
      is an object with at least one key and one of its first five items is
      a string. The answer is then a 500 with the `.get` error; otherwise,
      unless the layout engine raises, the file is sent. */
  lemma TableErrorAnswer(body: JsonBody, render: Render, timestamp: string, layoutFailure: Option<string>)
    requires Validate(body).Accepted?
    ensures var d1 := Validate(body).d1;
      HasTable(d1) && 0 < |d1[0].fields| && (exists k | 0 <= k < |d1| && k < MaxItems :: d1[k].Str?)
      ==> GeneratePdfApi(body, render, timestamp, layoutFailure) == Error(500, SummaryTable.NoGetMessage)
    ensures var d1 := Validate(body).d1;
      !(HasTable(d1) && 0 < |d1[0].fields| && (exists k | 0 <= k < |d1| && k < MaxItems :: d1[k].Str?)) && layoutFailure.None?
      ==> GeneratePdfApi(body, render, timestamp, layoutFailure).PdfFile?
  {
    var v := Validate(body);
    StoryLayout.AssembleFailure(v.d1, v.d2, v.d3, render);
  }

  /** A file that is sent has an index that lists the story's headings. */
  lemma SentIndexMatchesStory(body: JsonBody, render: Render, timestamp: string, layoutFailure: Option<string>)
    requires GeneratePdfApi(body, render, timestamp, layoutFailure).PdfFile?
    ensures GeneratePdfApi(body, render, timestamp, layoutFailure).doc.index
      == Headings(GeneratePdfApi(body, render, timestamp, layoutFailure).doc.story)
  {
    var v := Validate(body);
    StoryProperties.IndexIsHeadings(v.d1, v.d2, v.d3, render, Assemble(v.d1, v.d2, v.d3, render).value);
  }
}
