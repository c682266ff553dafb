# PDF generator with a clickable index — verified model

The program is a small web service. It receives three datasets in a
`POST /api/generate-pdf` request and answers with a PDF document. The
document has a title, a table of contents and one section per dataset:

- each section states how many records the dataset has;
- it shows at most the first five items, each under a numbered subsection heading;
- section 1 adds a summary table when dataset 1 starts with a key/value record;
- a closing section reports the record totals.

A custom canvas stamps "Page k of N" on every page. It holds each
finished page back until the page count N is known.

This project models four pieces of that logic in Dafny and proves what they promise:

- **Story and index assembly** (`generate_pdf`). The story is the sequence
  of blocks handed to the layout engine, and the index is the list of
  table-of-contents entries. The imperative `Story.GeneratePdf` builds both
  with the same appends as the source. It is proved equal to the pure
  `Story.Assemble`. `StoryProperties` and `StoryLayout` prove the index
  contents, the story layout and the failure condition about `Assemble`.
- **Summary table** (`create_summary_table`). The loop method
  `SummaryTable.CreateSummaryTable` is proved equal to the function
  `SummaryTable.SummaryTable`. Lemmas give the table's shape and bounds,
  its spacer fallback and the exact condition under which it raises.
- **Page-number canvas** (`NumberedCanvas`). A class with the canvas's
  page counter, current page, held-back snapshots and emitted pages. `Save`
  is proved to emit exactly the stamped snapshots, in order.
- **Endpoint** (`generate_pdf_api`). A function from the request body to
  the HTTP answer, covering the two 400 checks, the 500 path and the file
  answer.

Modules, one per file:

- `Text` (`text.dfy`): decimal rendering of numbers and reading a number back out of a sentence.
- `Content` (`content.dfy`): input elements, story blocks, index entries, and the heading/label/count views of a story.
- `SummaryTable` (`summary_table.dfy`).
- `Story` (`story.dfy`).
- `StoryProperties` (`story_properties.dfy`): index lemmas.
- `StoryLayout` (`story_layout.dfy`): story lemmas.
- `PageNumbers` (`page_numbers.dfy`).
- `Api` (`api.dfy`).

Modelling choices:

- An input element is `Str(s)` or `Rec(fields)`. The fields are kept as an ordered sequence of key/value pairs, so key order counts.
- Python's `str(...)` of an element is the uninterpreted parameter `render`.
- Spacer heights are in millimetres: `1*cm` is 10, `0.5*cm` is 5, `0.3*cm` is 3, and the fallback `Spacer(1, 0)` is 0.
- A `Heading(text, level)` block stands for a paragraph in a heading style that is also registered with the table of contents.
- Three things outside the code become parameters: the clock reading that names the file (`timestamp`), the exception text if the layout engine raises (`layoutFailure`), and the drawing operations of each page (`RenderPages`'s input).

## Model

| member | source | states |
|---|---|---|
| `SummaryTable.LookupSpec` | app.py:245 | `item.get(h)` finds nothing exactly when `h` is not among the record's keys; what it finds is paired with `h` in the record |
| `SummaryTable.Cell` | app.py:245 | the definition of one cell; its contract bounds it to 30 characters and makes it `''` for a missing key, and `CellSpec` states what it holds otherwise |
| `SummaryTable.CellSpec` | app.py:245 | a cell has at most 30 characters; it is `''` when the record lacks the key; otherwise it is the first min(30, length) characters of the rendered value |
| `SummaryTable.Row` | app.py:245 | the definition of one body row; it fails exactly when there is a header and the item is a string, with the `.get` error, and otherwise has one cell of at most 30 characters per header; `RowsSpec` and `TableShape` build on it |
| `SummaryTable.RowsSpec` | app.py:244-246 | one row per item, in order, each built from that item; the rows fail exactly when some item's row fails, and then with the `.get` error |
| `SummaryTable.SummaryTable` | app.py:235-262 | the definition of `create_summary_table`; its contract says a failure is the `.get` error and a success is a spacer or a table of 2 to 6 rows whose header row has at most three keys; `SpacerFallback`, `TableShape` and `TableFailure` state the rest |
| `SummaryTable.CreateSummaryTable` | app.py:235-262 | the loop that grows the table data builds exactly the block `SummaryTable` describes, failing the same way |
| `SummaryTable.SpacerFallback` | app.py:237-238 | the result is the zero-height spacer exactly when the list is empty or its first element is not a record |
| `SummaryTable.TableShape` | app.py:241-246 | a built table's header row is the first min(3, #keys) keys of the first record, in order; it has min(5, len(data)) body rows; every row is as wide as the header; body cell (k, j) is `Cell` of item k under header j and is at most 30 characters |
| `SummaryTable.TableFailure` | app.py:244-245 | building raises exactly when the first record has a key and a string item is among the first five; the message is `'str' object has no attribute 'get'` (the table constructor's zero-column error is left out) |
| `Story.TableOfContents.constructor` | app.py:133 | a new table of contents has no entries |
| `Story.TableOfContents.AddEntry` | app.py:141 | `addEntry` appends one (level, label) entry and changes nothing else |
| `Story.AddFrontMatter` | app.py:129-137 | the story opens with title, spacer, contents heading, spacer, the table of contents and a page break |
| `Story.OpenSection` | app.py:139-149 | a section opening appends title, spacer, overview heading and count sentence, and registers both headings |
| `Story.AddItems` | app.py:152-156 | the item loop appends heading, text and spacer for each of the first min(5, len(d)) items and registers each heading at level 2 |
| `Story.AddDataset` | app.py:139-156 | a dataset section's blocks and entries are the opening's followed by the items' |
| `Story.Assemble` | app.py:112-228 | the definition of the story and index `generate_pdf` builds; its contract says it fails only when the table is built, and then with the `.get` error; the `StoryProperties` and `StoryLayout` lemmas state its shape (paragraph markup errors and the zero-column table error are left out) |
| `Story.AddTable` | app.py:159-162 | the table subsection is appended and registered exactly when dataset 1 starts with a record; a failing table build is passed on |
| `Story.AddFirstSection` | app.py:139-164 | section 1 is the dataset section, then the table subsection, then a page break |
| `Story.AddConclusion` | app.py:208-228 | the conclusion appends its title, spacer, closing text, statistics heading and statistics paragraph, and registers both headings |
| `Story.GeneratePdf` | app.py:112-228 | the appends and `addEntry` calls of `generate_pdf` produce exactly `Assemble`'s story and index, or `Assemble`'s error when the table build raises |
| `StoryProperties.ItemBlocksShape` | app.py:152-156 | item j's three blocks sit at positions 3j to 3j+2: its heading `w.2.j …`, its rendered text and a spacer |
| `StoryProperties.ItemBlocksKinds` | app.py:152-156 | item blocks are only level-2 headings, body paragraphs and spacers |
| `StoryProperties.ItemEntriesShape` | app.py:152-154 | the item loop registers exactly one level-2 entry per shown item, labelled with its number |
| `StoryProperties.HeadingsOfItems` | app.py:152-154 | the entries registered by the item loop are the item headings it appends, in order |
| `StoryProperties.LabelsOfItems` | app.py:152-154 | item entries are all at level 2 and carry the labels `ItemLabels` lists |
| `StoryProperties.ItemLabelExamples` | app.py:152-204 | the item labels come out as "1.2.1 Item 1", "2.2.5 Record 5" and "3.2.3 Element 3" |
| `StoryProperties.HeadingsOfSection` | app.py:139-156 | a section's headings are its title, its overview and its item headings, followed by the headings of what is appended to it |
| `StoryProperties.IndexIsHeadings` | app.py:129-228 | every heading of the story is registered with the table of contents, in story order, and nothing else is |
| `StoryProperties.IndexLevel0` | app.py:139-210 | the level-0 entries are exactly "1. First Data Set", "2. Second Data Set", "3. Third Data Set", "4. Conclusion", in that order |
| `StoryProperties.IndexLevel1` | app.py:145-220 | the level-1 entries are 1.1, then "1.3 Summary Table" exactly when dataset 1 starts with a record, then 2.1, 3.1 and 4.1 |
| `StoryProperties.IndexLevel2` | app.py:152-204 | the level-2 entries are the item labels of sections 1, 2 and 3 in order, min(5, len(dk)) per section |
| `StoryProperties.IndexLevelsBounded` | app.py:129-220 | every index entry has level 0, 1 or 2 |
| `StoryLayout.SectionsStartPages` | app.py:164-209 | every level-0 heading (the section titles, the conclusion's included) comes right after a page break; every page break is followed by a level-0 heading |
| `StoryLayout.BreakCount` | app.py:137-206 | the story holds exactly four page breaks |
| `StoryLayout.TocThenBreak` | app.py:136-137 | the first page break comes right after the table of contents; no break comes before it |
| `StoryLayout.ItemsInStory` | app.py:152-204 | for each of the first five items of every dataset, the story holds its numbered heading, then its rendered text, then a spacer |
| `StoryLayout.CountsInStory` | app.py:145-197 | each dataset's overview heading is directly followed by the count sentence for the dataset's full length, not the capped one |
| `StoryLayout.CountSentenceReadsBack` | app.py:146-149 | the number in a count sentence reads back as the length it was built from |
| `StoryLayout.StatsAtEnd` | app.py:219-228 | the story ends with the statistics heading and the statistics paragraph for the three full lengths |
| `StoryLayout.StatsReadsBack` | app.py:221-227 | the grand total in the statistics paragraph reads back as len(d1) + len(d2) + len(d3) |
| `StoryLayout.TableBlocksKinds` | app.py:159-162 | the table subsection is either empty or the "1.3 Summary Table" heading followed by the table built from the first five items |
| `StoryLayout.PlainSectionTables` | app.py:166-204 | sections 2 and 3 contain no table |
| `StoryLayout.TableCount` | app.py:159-162 | the story holds one table when dataset 1 starts with a record, and none otherwise |
| `StoryLayout.TableUnderHeading` | app.py:159-162 | when dataset 1 starts with a record, the table built from its first five items comes right under the "1.3 Summary Table" heading |
| `StoryLayout.AssembleFailure` | app.py:159-162 | assembly fails exactly when the table is built and meets a string among the first five items while the first record has a key; the error is the `.get` error (paragraph markup errors and the zero-column table error are left out) |
| `PageNumbers.NumberedCanvas.constructor` | app.py:27-29 | a new canvas is on page 1 with nothing held back or emitted |
| `PageNumbers.NumberedCanvas.StartPage` | app.py:33 | starting a page advances the page number by one and clears the page |
| `PageNumbers.NumberedCanvas.ShowPage` | app.py:31-33 | `showPage` appends exactly one snapshot, of the page just finished, emits nothing, and keeps the snapshots numbered 1, 2, … |
| `PageNumbers.NumberedCanvas.EmitPage` | app.py:41 | the base `showPage` writes the current page out and starts the next |
| `PageNumbers.NumberedCanvas.DrawPageNumber` | app.py:44-51 | the stamp drawn on a page is "Page k of N" for its own number k |
| `PageNumbers.NumberedCanvas.Save` | app.py:35-42 | `save` emits every snapshot exactly once, in order, each with its own stamp and N = the snapshot count |
| `PageNumbers.RenderPages` | app.py:25-51 | when N pages are drawn through the canvas, N pages come out; page k has its own drawing followed by "Page k of N" |
| `PageNumbers.PageLabel` | app.py:50 | the definition of the stamp text; its contract gives its length and its "Page " start; `PageNumberReadsBack`, `PageCountReadsBack` and `PageLabelInjective` state what it encodes |
| `PageNumbers.PageNumberReadsBack` | app.py:50 | the number before " of " in a stamp is the page number |
| `PageNumbers.PageCountReadsBack` | app.py:50 | the number that ends a stamp is the page count |
| `PageNumbers.PageLabelInjective` | app.py:50 | two stamps are equal only for the same page number and page count |
| `PageNumbers.StampedLabels` | app.py:35-51 | for numbered snapshots, page k carries "Page k of N", every page has the same N, and no two emitted pages are alike |
| `Api.Get` | app.py:287-289 | a dataset is the body's member of that name, or `[]` when absent |
| `Api.DownloadName` | app.py:296-297 | the file is named `poc_document_`, then the timestamp, then `.pdf` |
| `Api.Validate` | app.py:283-293 | the definition of the checks before the PDF work; its contract says a body is rejected exactly when it is falsy or an object whose three datasets are all empty or absent, always with one of the two fixed messages, and that only a truthy non-object raises; `AcceptedExactly` states what an accepted body hands on |
| `Api.GeneratePdfApi` | app.py:279-312 | the definition of the endpoint; its contract says an error is a 400 or a 500 and a sent file comes from an accepted body with no layout failure, under the timestamped name; `BadRequests`, `StatusCodes`, `PdfSentExactly`, `ServerErrors`, `TableErrorAnswer` and `SentIndexMatchesStory` state the rest (paragraph markup errors and the zero-column table error are left out) |
| `Api.AcceptedExactly` | app.py:283-293 | a body gets past validation exactly when it is an object with at least one non-empty dataset; the datasets handed on are its members, missing ones empty |
| `Api.BadRequests` | app.py:283-293 | a falsy body gets 400 "No data provided"; a non-empty object whose three datasets are all empty or absent gets 400 "At least one data set must be provided"; a 400 comes exactly from validation, whatever the rendering and the layout do |
| `Api.StatusCodes` | app.py:279-312 | a 400 answer carries one of the two fixed messages (that every error answer is a 400 or a 500 is the contract of `GeneratePdfApi`) |
| `Api.NonObjectBody` | app.py:287 | a truthy body that is not an object gets a 500 with the `.get` error for its type |
| `Api.OtherMembersIgnored` | app.py:283-289 | for a non-empty body, members other than the three datasets do not change the answer; an empty body is falsy and gets "No data provided" instead |
| `Api.PdfSentExactly` | app.py:301-309 | the file is sent exactly when validation passes, assembly succeeds and layout does not raise; the file is the assembled document under the timestamped name |
| `Api.ServerErrors` | app.py:311-312 | an exception during assembly or layout is answered with a 500 carrying the exception's text |
| `Api.TableErrorAnswer` | app.py:301 | an accepted request whose summary table meets a string item gets a 500 with the `.get` error; without that and without a layout error, the file is sent (paragraph markup errors and the zero-column table error are left out) |
| `Api.SentIndexMatchesStory` | app.py:301 | in a sent document, the entries registered through `addEntry` before layout are exactly the story's headings, in order |

## Left out

- Layout and pagination: `SimpleDocTemplate`, `multiBuild` and its repeated passes, frame flow, and how many physical pages a story fills are library internals. The model hands the story to an abstract layout step whose only observable effect is `layoutFailure`.
- The page argument of `toc.addEntry` and the index's link targets: the source reads `doc.page` while building the story, not at layout time, so nothing is claimed about index pages.
- Styles and geometry: paragraph and table styles, colours, fonts, the table-of-contents level styles, and the stamp's position and font are not modelled; only the stamp text is.
- Flask routing, `request.get_json`, `jsonify` and `send_file`: the body is given as a decoded JSON value, and the answer is a value. A body that fails to decode, where the framework itself raises, is not modelled.
- The temporary-directory path and the clock: the timestamp is a parameter of `Api.GeneratePdfApi`.
- The `/api/test` endpoint, `generate_sample` and `__main__` boot code.
- `str()` of a JSON value is the uninterpreted `render` parameter, and the model does not check that the rendered text is valid paragraph markup. The library's `Paragraph` parses its markup when it is constructed. An item text such as `"<foo>"` therefore raises while the story is being built (app.py:155, 182, 203), before the summary table and before layout. That exception is not modelled: `layoutFailure` stands only for exceptions raised during `multiBuild`.
- StoryLayout.AssembleFailure: the `.get` failure is the only failure modelled. The claim that assembly fails exactly then, with that message, assumes every item text parses as paragraph markup. It also leaves out the library's error for a zero-column table (see `SummaryTable.TableFailure`).
- Api.TableErrorAnswer: the 500 with the `.get` message, and the file being sent otherwise, assume every item text parses as paragraph markup and the first record is not `{}` (see `StoryLayout.AssembleFailure` and `SummaryTable.TableFailure`).
- Record values are seen only through `str(...)` (app.py:245), so any JSON value held in a record (a number, `null`, a list, as in the sample records of app.py:333-339) is covered: an `Element` stands for it and `render` gives its text. As dataset items, JSON values other than strings and objects are not modelled, and neither are dataset members that are not lists (e.g. `null` or a number).
- Records with duplicate keys: a decoded JSON object never has two members with the same key (the last value wins, at the first key's position), so a `Rec` with a repeated key has no counterpart in the program; the model does not exclude such records, and for one of them `Headers` can repeat a key and lookup returns the first pair.
- SummaryTable.TableFailure: only the `AttributeError` of `.get` on a string item is modelled; other item types failing `.get` are outside the element model.
- SummaryTable.TableFailure: the table constructor's own check that a table has at least one row and one column is library code and is not modelled. So a first record `{}` gives a header row with no keys, and the model builds a zero-column table, `Ok(Table([[], ...]))`, where the library raises a `ValueError` that the endpoint answers with a 500. `StoryLayout.AssembleFailure` and `Api.TableErrorAnswer` share this gap.
- SummaryTable.SummaryTable: for a first record `{}` it returns a zero-column table where the library raises (see `SummaryTable.TableFailure`).
- Story.Assemble: it fails only through the `.get` error of the table build. An item text that does not parse as paragraph markup (app.py:155, 182, 203) and a first record `{}`, for which the library's `Table` raises (app.py:249), both make the program raise, while `Assemble` succeeds.
- Api.GeneratePdfApi: for those two inputs it answers the `.get` 500 or sends the file, where the program answers with a 500 carrying the library's exception text (app.py:311-312); see `Story.Assemble`.
- PageNumbers.NumberedCanvas.Save: the base `Canvas.save` (writing the file, and its own `showPage` when the last page still holds drawing) is not modelled; the `__dict__` update is modelled as restoring the page number and the page's drawing operations only.
- StoryLayout.StatsReadsBack: only the grand total is read back from the statistics text; the three per-dataset numbers are shown to be the three lengths by the definition of `StatsText`.
