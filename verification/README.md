# test_tc_generator in Dafny

This project models the core of test_tc_generator, a tool that turns a game design document
(PDF or Word) into a spreadsheet of test cases with the help of a language model (Google
Gemini or OpenAI GPT-4 Turbo). The pipeline has these stages:

- The document is loaded.
- The document is cut into chunks.
- Chunks that are too short or that the model calls useless are dropped.
- The model is asked for a major/medium/minor taxonomy, with a fixed default taxonomy as a
  fallback.
- The model is asked for test cases in batches of five chunks. A generic random test case per
  chunk is the fallback.
- The model is asked to score every test case. The total is recomputed from the four
  component scores.
- The test cases are written to a worksheet with an item number, a score text and a grade.

What the model does not determine is passed in as a parameter:

- **Backend replies.** Each reply is given as `Client.Reply`: a text, an unreadable reply, or a
  failed call. Call k of a stage gets `oracle(k)`.
- **json.loads.** It is an arbitrary partial function `Client.Parser`.
- **random.choice.** It is given raw indices through a `Synthesis.Chooser`.
- **Loaders and text splitter.** These are the PDF and Word loaders and the text splitter; they
  are functions passed in as parameters.

Python values are `Values.Json`. Dicts are association lists in insertion order, and an
exception is the `Err` side of `Values.Result`.

Modules:

- `Values`: shared values, dict access and the string operations used (`strip`, `lower`, `in`).
- `Spans`: the greedy `re.search(r'({.*})')` / `r'(\[.*\])'` span search.
- `Client`: the credential gate and the shape of a backend reply.
- `Relevance`: the short-chunk filter and the yes/no answer test.
- `Structure`: the taxonomy, its default, and how generate_testcases reads it.
- `Synthesis`: batching, the parse ladder, and generic fallback records.
- `Validation`: quality scoring and the recomputed total.
- `Export`: the worksheet (header row, record rows, grades and column widths).
- `Loading`: extension dispatch and chunk flattening.

The three loops of processor.py are methods whose result equals a recursive specification
function. So are the three loops of app.py. The properties of each stage are lemmas about that
function.

## Model

| member | source | states |
|---|---|---|
| `Client.ConfigureApiClients` | test_tc_generator/processor.py:9-16 | succeeds exactly when the selected backend's key is present; Gemini gives the marker "gemini", OpenAI a client built from the "openai" key; otherwise ValueError with the fixed message |
| `Spans.FindSpan` | test_tc_generator/processor.py:117-119 | no span exactly when no closer follows an opener anywhere; otherwise the leftmost, longest `open .* close` match, as re.search with a greedy `.*` and DOTALL returns it |
| `Spans.SpanDelimited` | test_tc_generator/processor.py:225-227 | a found span starts with the opener, ends with the closer and occurs in the text |
| `Relevance.CheckIfUsefulForTestcase` | test_tc_generator/processor.py:54-68 | a readable answer decides; a failed call or unreadable reply raises (no try block on either backend); the verdict is the answer test |
| `Relevance.AffirmativeMeaning` | test_tc_generator/processor.py:57-58 | the trimmed, lower-cased answer test holds exactly when the raw answer contains "예" or contains "yes" in any letter case |
| `Relevance.StripKeepsWords` | test_tc_generator/processor.py:67-68 | trimming never changes whether a word without whitespace occurs in the answer |
| `Relevance.FilterTurn` | test_tc_generator/processor.py:25-34 | one turn of the loop: a chunk that is empty or shorter than 10 characters once trimmed is passed over without a call; any other costs one call and is kept exactly when the reply is affirmative; an unreadable reply or failed call raises |
| `Relevance.FilterUnnecessarySentences` | test_tc_generator/processor.py:19-36 | the loop returns the credential error, or exactly the result of the filter specification |
| `Relevance.FilterRunSelects` | test_tc_generator/processor.py:24-34 | one backend call per chunk that passes the length check; the kept chunks are exactly those whose reply is affirmative, in input order |
| `Relevance.FilterRunFailsIff` | test_tc_generator/processor.py:27-31 | the filter raises exactly when a chunk that passes the length check gets a reply that is not text |
| `Relevance.FilterRunReadsOnlyItsCalls` | test_tc_generator/processor.py:27-29 | short or empty chunks are never sent: only the first CountSent replies affect the result |
| `Structure.AsTaxonomy` | test_tc_generator/processor.py:177-183 | the three keys are read unguarded, in f-string order: a non-dict structure raises TypeError; the first missing key raises KeyError with that key; a "중분류" or "소분류" that is not a dict raises AttributeError; a part of the wrong shape raises TypeError; an object whose three entries are well shaped reads as exactly those entries, wherever they sit |
| `Structure.IdentifyDocumentStructure` | test_tc_generator/processor.py:103-143 | raises exactly when the backend's key is missing (the credential error) or the Gemini call itself fails (OracleError); every other failure gives a structure; a `{...}` span of the Gemini text that parses, or an OpenAI text that parses as a whole, is returned as parsed |
| `Structure.TripleRead` | test_tc_generator/processor.py:145-161 | the object with the keys "대분류", "중분류" and "소분류" in that order, as create_default_structure builds it, reads as exactly its three parts when they are well shaped |
| `Structure.BuiltStructureRead` | test_tc_generator/processor.py:145-161 | a structure built as the default one is built, from any lists, reads back as exactly those lists |
| `Structure.DefaultStructureRead` | test_tc_generator/processor.py:145-161 | the default structure reads as the default taxonomy without error |
| `Structure.DefaultMajorsShape` | test_tc_generator/processor.py:148-154 | exactly the four majors in order, each a key of "중분류" with two or three mediums, and no other key |
| `Structure.DefaultMinorsShape` | test_tc_generator/processor.py:155-160 | "소분류" has exactly four keys, each a medium listed under some major |
| `Structure.DefaultMediumMap` | test_tc_generator/processor.py:149-154 | the medium map is the literal map of the source |
| `Structure.DefaultMinorMap` | test_tc_generator/processor.py:155-160 | the minor map is the literal map of the source |
| `Structure.DefaultFallbackSafe` | test_tc_generator/processor.py:278-285 | every random.choice of the generic fallback has a non-empty list under the default taxonomy |
| `Structure.GeminiWithoutObjectDefaults` | test_tc_generator/processor.py:117-123 | a readable Gemini reply with no `{...}` span gives exactly the default structure |
| `Structure.ParseFailureDefaults` | test_tc_generator/processor.py:124-143 | when json.loads always fails, every returned structure is the default |
| `Structure.StructureComesFromReply` | test_tc_generator/processor.py:117-140 | any non-default structure was parsed from the reply: from its `{...}` span on Gemini, from the whole text on OpenAI |
| `Synthesis.NumBatches` | test_tc_generator/processor.py:170-171 | the batch count is the least m with 5m >= n, that is ceil(n/5) |
| `Synthesis.Batch` | test_tc_generator/processor.py:171-172 | batch b is the slice from 5b, at most 5 long, exactly 5 long except for the last, and never empty below the batch count |
| `Synthesis.BatchesPartition` | test_tc_generator/processor.py:171-172 | the batches concatenated in order give back exactly the input chunks |
| `Synthesis.Choice` | test_tc_generator/processor.py:279 | random.choice succeeds exactly on a non-empty list, with an element of it; IndexError otherwise |
| `Synthesis.ChoiceReaches` | test_tc_generator/processor.py:282 | every element of a non-empty list can be drawn |
| `Synthesis.GenericTestcase` | test_tc_generator/processor.py:276-298 | a drawn record has major in "대분류", medium in the major's list or ["일반"], minor in the medium's list or ["기본"], kind in 정상/예외/경계, content "다음 내용 검증: " + sentence[:50] + "...", the fixed condition and expectation, and an empty note; it fails only with IndexError, and only when some list is empty |
| `Synthesis.GenericComplete` | test_tc_generator/processor.py:289-298 | every such record is produced by some draws |
| `Synthesis.GenericBatchRecords` | test_tc_generator/processor.py:231 | the comprehension gives one generic record per chunk in chunk order, and always succeeds when every draw has options |
| `Synthesis.FallbackRetries` | test_tc_generator/processor.py:229-234 | nested fallbacks give the first attempt that succeeds, and raise only when every attempt raised, with the last attempt's error |
| `Synthesis.FallbackRecords` | test_tc_generator/processor.py:264-270 | whichever attempt succeeds, a fallback batch is one generic record per chunk |
| `Synthesis.Ladder` | test_tc_generator/processor.py:213-270 | only a failed Gemini call escapes; an unreadable reply or a failed span parse falls back once; no span on Gemini falls back up to twice; no span on OpenAI goes to the whole-reply parse |
| `Synthesis.WholeReply` | test_tc_generator/processor.py:257-266 | a parsed list is taken as is and a dict's "testcases" entry is taken; a dict without it, or a string without "testcases", falls back up to three times; a parse failure, a number, a bool, null or a string containing "testcases" falls back up to twice; nothing escapes |
| `Synthesis.Elements` | test_tc_generator/processor.py:272 | extend adds a list's items, a dict's keys or a string's characters, and raises TypeError on any other value |
| `Synthesis.BatchFallsBack` | test_tc_generator/processor.py:213-270 | under a taxonomy where every draw has a non-empty list (FallbackSafe), a batch whose ladder ends in the fallback on any path (no readable reply, no span, a parse failure, a parsed reply of the wrong shape) gives exactly one generic record per chunk, in order |
| `Synthesis.GenerateBatch` | test_tc_generator/processor.py:171-272 | one turn of the batch loop: the slice starting at chunk 5b goes out as call b, and the turn adds exactly what the batch specification says batch b adds (a parsed value's elements by BatchTakesParsed, generic records by BatchFallsBack) |
| `Synthesis.BatchTakesParsed` | test_tc_generator/processor.py:228-272 | a batch whose reply parses adds exactly what extend adds for the parsed value: a list's items, a dict's keys, a string's characters, or a TypeError |
| `Synthesis.GenerateTestcases` | test_tc_generator/processor.py:164-274 | the batch loop returns exactly the result of the batch specification |
| `Synthesis.OneReplyPerBatch` | test_tc_generator/processor.py:171-215 | reply b is read by batch b only: replies past the last batch never matter |
| `Synthesis.RunBatchesFailsIff` | test_tc_generator/processor.py:171-272 | the run raises exactly when some batch raises |
| `Synthesis.RunBatchesExtends` | test_tc_generator/processor.py:272 | one more batch appends its records to the output |
| `Synthesis.ParsedBatchExtendsRun` | test_tc_generator/processor.py:228-272 | when batch m's reply parses, the test cases after batch m are those before it followed by the parsed value's elements, or the run raises TypeError when the value cannot be iterated |
| `Synthesis.RunBatchesPrefix` | test_tc_generator/processor.py:272-274 | the output of every shorter run is a prefix of the full output |
| `Synthesis.NoChunksNoBatches` | test_tc_generator/processor.py:171 | no chunks gives no test cases, without reading the taxonomy |
| `Synthesis.AllGenericRun` | test_tc_generator/processor.py:171-272 | when each of the first m batches gives generic records for its chunks, the output is one generic record per chunk covered, in chunk order |
| `Synthesis.OpenAIAllFail` | test_tc_generator/processor.py:235-270 | on OpenAI with no readable reply and a taxonomy where every draw has options, the run gives exactly one generic record per chunk, in chunk order |
| `Synthesis.MalformedTaxonomyRaises` | test_tc_generator/processor.py:177-183 | a taxonomy that cannot be read stops a non-empty run with that error |
| `Synthesis.GeminiCallFailureRaises` | test_tc_generator/processor.py:213-215 | a failed Gemini call in any batch makes the whole run raise |
| `Validation.ComponentSumMeaning` | test_tc_generator/processor.py:360-365 | the recomputed total is the sum of the four components, with a missing one counting 0; TypeError when any is not a number |
| `Validation.Recompute` | test_tc_generator/processor.py:357-367 | a parsed object scores its component sum; when the sum raises, its own "총점" is kept, or KeyError("총점"); a non-object raises TypeError |
| `Validation.ScoreFor` | test_tc_generator/processor.py:341-396 | 75 unless a span or reply is parsed; a failed Gemini call raises; a parsed value scores as Recompute says |
| `Validation.FirstMissing` | test_tc_generator/processor.py:308-317 | none exactly when the record holds all eight keys; otherwise the first key, in the order the prompt reads them, that it lacks |
| `Validation.ValidateOne` | test_tc_generator/processor.py:306-400 | a non-dict raises TypeError and a record lacking a field raises KeyError for the first one missing; a record holding all eight keys is scored exactly when its score is obtained, and otherwise raises the score's error; a scored record keeps every other field and its key order and has "점수" set to its score |
| `Validation.ValidateTestcaseQuality` | test_tc_generator/processor.py:301-402 | the loop returns exactly the result of the validation specification |
| `Validation.MapRunSpec` | test_tc_generator/processor.py:306-400 | a list loop succeeds exactly when every item's step does, and returns the step results in item order |
| `Validation.ValidatedRecords` | test_tc_generator/processor.py:399-402 | validation returns as many records as it got, record k scored by reply k |
| `Validation.OpenAIAllFailScores` | test_tc_generator/processor.py:370-396 | on OpenAI with no readable reply, every well-formed record gets "점수" 75 |
| `Validation.ReportedTotalIgnored` | test_tc_generator/processor.py:386-393 | when the sum succeeds, the reported "총점" does not matter |
| `Validation.TotalsNotClamped` | test_tc_generator/processor.py:360-367 | numeric components score exactly their sum, a missing one counting 0, whatever its size and with no clamping to 0-100 |
| `Validation.ParseThenFailKeepsReportedTotal` | test_tc_generator/processor.py:357-367 | a parsed object with a non-numeric component keeps its reported total, or raises KeyError when it has none |
| `Export.GradeBands` | test_tc_generator/app.py:93-100 | 🟢 exactly from 90, 🟡 on 70-89, 🟠 on 50-69, 🔴 below 50 |
| `Export.GradeMonotone` | test_tc_generator/app.py:93-100 | a higher score never gets a worse grade |
| `Export.GradeBoundaries` | test_tc_generator/app.py:93-100 | 90 is 🟢, 89 and 70 are 🟡, 69 and 50 are 🟠, 49 is 🔴 |
| `Export.Item` | test_tc_generator/app.py:79 | tc[key] gives the bound value, KeyError for a dict without the key, TypeError for a non-dict |
| `Export.Storable` | test_tc_generator/app.py:78-86 | a cell takes a scalar unchanged (the 32767-character cut is left out); a list or dict raises ValueError |
| `Export.Fields` | test_tc_generator/app.py:79-86 | the eight field cells exist exactly when each field is present and scalar, and are those values in order |
| `Export.FieldsFirstFailure` | test_tc_generator/app.py:79-86 | when the cells cannot all be written, the error raised is that of the first field in column order that fails: tc[key]'s KeyError or TypeError, or the ValueError of a value a cell cannot store |
| `Export.AsNumber` | test_tc_generator/app.py:93 | the comparison works for an int (its value) or a bool; any other score raises TypeError |
| `Export.RowExists` | test_tc_generator/app.py:78-102 | a record's row exists exactly when the record is a dict with the eight fields as scalars and a numeric score |
| `Export.RowLayout` | test_tc_generator/app.py:78-102 | a row holds item number k+1, the fields verbatim under their headers, str(score)+"점" and the score's grade |
| `Export.HeaderRow` | test_tc_generator/app.py:70-74 | the header row holds the eleven headers of line 63 in order |
| `Export.RowsSpec` | test_tc_generator/app.py:77-102 | the rows exist exactly when every record has one; they are then the records' rows in order, eleven cells each |
| `Export.ColumnMaxIsMax` | test_tc_generator/app.py:106-110 | the accumulated length bounds every truthy value's str length, and is one of them, or 0 when there are none |
| `Export.HeaderCells` | test_tc_generator/app.py:70-74 | a sheet showing the layout holds the headers across row 1 |
| `Export.Worksheet.constructor` | test_tc_generator/app.py:58-59 | a new sheet is empty and reports one row and one column |
| `Export.Worksheet.SetTitle` | test_tc_generator/app.py:60 | only the title changes |
| `Export.Worksheet.Cell` | test_tc_generator/app.py:71 | writes one cell and grows the maximum row and column |
| `Export.Worksheet.WriteRow` | test_tc_generator/app.py:70-74 | writes the values across one row and leaves every other cell unchanged |
| `Export.Worksheet.AppendRow` | test_tc_generator/app.py:77-102 | a record row written below the shown rows extends the shown layout by that row |
| `Export.Worksheet.FitColumnWidths` | test_tc_generator/app.py:104-112 | every column from 1 to 11 gets width 2 plus its longest truthy value; cells stay unchanged |
| `Export.Worksheet.SetWidth` | test_tc_generator/app.py:112 | sets one column width and nothing else |
| `Export.CreateExcelWithTestcases` | test_tc_generator/app.py:56-119 | raises exactly when a record has no row, with that record's error; otherwise a fresh sheet titled "Testcases" shows the header row above the record rows, with the fitted widths |
| `Loading.Extension` | test_tc_generator/app.py:27 | the extension is empty, or a suffix of the path that starts with '.', has no other '.' and no '/', and follows a character of the last component that is not a dot (so ".bashrc" has none) |
| `Loading.DottedNameHasExtension` | test_tc_generator/app.py:27 | a last component with a dot after a character that is not a dot always has an extension |
| `Loading.StemThenExtension` | test_tc_generator/app.py:27 | a stem whose last component has a character other than '.' followed by an extension has exactly that extension |
| `Loading.LoadDocument` | test_tc_generator/app.py:26-39 | pages are loaded exactly when the lower-cased extension is .pdf, .docx or .doc, by the loader chosen for it; otherwise None |
| `Loading.PdfInAnyCase` | test_tc_generator/app.py:27-31 | any name ending in ".PDF" after a stem goes to the PDF loader |
| `Loading.LastExtensionCounts` | test_tc_generator/app.py:27-34 | any name ending in ".v2.doc" after a stem goes to the Word loader: only the last extension counts |
| `Loading.UnsupportedFormat` | test_tc_generator/app.py:27-37 | a name ending in ".pdf.xlsx" is refused: a supported extension before the last does not count |
| `Loading.BareExtensionRefused` | test_tc_generator/app.py:27-37 | ".pdf" alone has no extension and is refused |
| `Loading.DottedDirectoryRefused` | test_tc_generator/app.py:27-37 | a dot in a directory name ("scans.pdf/page") is not an extension, and the file is refused |
| `Loading.Chunks` | test_tc_generator/app.py:50-52 | one document per chunk of a page, each carrying that page's metadata |
| `Loading.SplitIntoSentences` | test_tc_generator/app.py:41-54 | the nested append loop returns exactly the flattened chunks |
| `Loading.FlattenPrefix` | test_tc_generator/app.py:49-52 | the chunks of earlier pages come first, unchanged |
| `Loading.FlattenLayout` | test_tc_generator/app.py:48-54 | chunk j of page i sits at that page's offset plus j and carries page i's metadata |
| `Loading.FlattenOrigin` | test_tc_generator/app.py:48-54 | every output element is some chunk of some page: the output holds nothing else |

## Left out

- The Gemini and OpenAI SDK calls, model names and prompt texts (the f-strings of processor.py) are not modelled. A call is its reply, and the three-entry prompt excerpts of lines 180 and 183 have no effect on results.
- json.loads is an arbitrary partial parser. JSON grammar and floating-point numbers are not modelled, and scores are integers.
- Values.Get: a key bound twice in one object is read from its first binding. json.loads keeps the last one, so objects with duplicate keys are not modelled faithfully.
- random.choice is modelled by injected indices (choice = options[r mod len]). The distribution of draws is not modelled.
- print logging, st.error, Streamlit `main`, `save_uploaded_file`, run.py and templates/testcase_template.py are UI, file I/O or process management. They are not part of this model.
- The PDF and Word loaders and the text splitter are parameters. Their own behaviour, and the separators, chunk size and overlap given to the splitter, are not modelled.
- Values.LowerAscii: lower-cases ASCII letters only. For the comparisons made here this is exact: no non-ASCII character lower-cases to a letter of "yes", ".pdf", ".docx" or ".doc".
- Structure.AsTaxonomy: Python also accepts some other shapes by duck typing, such as a string where a list of strings is expected, or a dict whose items are iterables of strings. This model raises TypeError for them.
- Validation.ValidateTestcaseQuality: the source updates the caller's dicts in place. The model returns updated copies, so aliasing between the input and output lists is not captured.
- Validation.Recompute: a component that is a float, or any other value Python's sum accepts besides int and bool, is treated as a TypeError.
- Export.CreateExcelWithTestcases: the row is checked before any of its cells are written. On an error the partly written workbook is discarded in both versions. Fills, fonts, alignment, openpyxl's illegal-character check and the BytesIO save are not modelled. The result is the worksheet rather than its bytes.
- Export.Worksheet.Cell: a None value is stored as a null cell; openpyxl leaves the cell empty. Both read as None.
- Loading.LoadDocument: the message shown for an unsupported format, and exceptions raised by a loader, are not modelled.
- Loading.Extension: POSIX paths only; Windows separators are not modelled.
- Export.Storable: openpyxl cuts a string cell to its first 32767 characters. The model stores every string whole, so for a longer value the cell and its fitted column width (Export.RowLayout, Export.Worksheet.FitColumnWidths) differ from the workbook's.
