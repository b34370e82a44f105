# herald document-intake core, modelled in Dafny

herald takes an uploaded PDF or image, has a multimodal language model
extract its contents as JSON, and then has a chat model reconcile that
extraction against a fixed JSON template. It keeps every artifact under a
per-submission identifier. Around two remote calls the repository has a
small amount of sequential logic, and this project models that logic:

- **Upload validation** (`app.py`). `allowed_file` compares the text after
  the last `.`, lower-cased, with six extensions. Both upload routes run the
  same three checks in the same order: a `file` part, a non-empty name, an
  allowed type. They create the submission directory *before* the type
  check. `UploadStore` records the directories and files the routes create.
- **Bracket scanning** (`JsonSpan`). All four reply handlers use one
  heuristic: the JSON payload runs from the first `{` to the last `}`. It is
  one function here, and the lemmas say exactly when it finds a span, which
  slice the span is, that it tolerates surrounding prose, and that it is
  idempotent.
- **The image pipeline** (`base64_processing.py`). Pages become PNG data
  URIs (the `data:` scheme of RFC 2397 over base64, section 4 of RFC 4648).
  The request content is the instruction block followed by one `image_url`
  block per page. The endpoint's answer is interpreted (error strings, None,
  the parsed value). Then the reconciliation call runs.
- **The two retrieval pipelines** (`dataprocessing/openai_solution.py`,
  `dataprocessing/process_doc.py`). They have early-exit chains, the result
  gate, and the context text joined with `"\n\n---\n\n"`. `process_doc.py`
  also builds a `sources` list and a summary, then reconciles with the
  template.

Every foreign call is a function-typed parameter, bundled in a `Services`
datatype per module. This covers the rasteriser, PNG saving, base64,
`requests.post`, the chat models, `json.loads`/`json.dumps`, the langchain
loaders and splitter, Chroma, and file reads. A remote model is therefore a
function from the request or conversation sent to the reply received, and
each operation says what it sends as well as what it returns. An exception
that escapes a Python function is `Outcome.Raised(message)`. Exceptions the
source catches are modelled as whatever value the handler returns.

Files: `wrappers.dfy` (Option, Outcome), `pystr.dfy` (`find`, `rfind`,
`join`, `lower`, `os.path.join`), `json_span.dfy`, `llm.dfy` (chat and
retrieval types, shared prompts, context text, reply handling), `app.dfy`,
`base64_processing.dfy`, `openai_solution.dfy`, `process_doc.dfy`.

## Model

| member | source | states |
|---|---|---|
| PyStr.Find | base64_processing.py:78 | `find('{')` is -1 exactly when there is no `{`; otherwise it is an index holding `{`, with none before it, and no later than any `{` |
| PyStr.RFind | base64_processing.py:79 | `rfind('}')` is -1 exactly when there is no `}`; otherwise it is an index holding `}`, with none after it, and no earlier than any `}` |
| PyStr.FindPastPrefix | base64_processing.py:78 | a prefix with no `{` before a text starting with `{` makes `find('{')` return exactly the prefix's length |
| PyStr.RFindBeforeSuffix | base64_processing.py:79 | a suffix with no `}` after a text ending in `}` makes `rfind('}')` return the index of that closing `}` |
| PyStr.JoinSingleton | dataprocessing/openai_solution.py:90 | joining one part gives that part, with no separator |
| PyStr.JoinLength | dataprocessing/process_doc.py:40 | the joined text's length is the parts' total length plus one separator per neighbouring pair |
| PyStr.JoinPart | dataprocessing/process_doc.py:40 | every part occurs in the joined text at its own offset, in order, and the separator follows every part except the last |
| PyStr.LowerPointwise | app.py:29 | lower-casing keeps the length and maps each character on its own |
| PyStr.LowerIdempotent | app.py:29 | lower-casing twice is the same as lower-casing once |
| PyStr.PathJoin | app.py:49-52 | an absolute `b` replaces `a`; otherwise the result is exactly `a + b` when `a` is empty or ends in `/`, and `a + "/" + b` in every other case |
| JsonSpan.ExtractSpanSomeIff | base64_processing.py:78-81 | the scan succeeds if and only if some `{` comes before some `}` (both directions) |
| JsonSpan.ExtractSpanIsOutermost | base64_processing.py:78-82 | a span is the contiguous slice from the first `{` to the last `}`, inclusive |
| JsonSpan.ExtractSpanDelimited | base64_processing.py:117-121 | a span has at least two characters, starts with `{` and ends with `}` |
| JsonSpan.ExtractSpanIdempotent | base64_processing.py:78-82 | scanning a returned span again gives the same span |
| JsonSpan.ExtractSpanOfSurrounded | dataprocessing/openai_solution.py:110-114 | a brace-delimited body with no `{` before it and no `}` after it is extracted exactly, whatever prose surrounds it |
| JsonSpan.ExtractSpanOfExample | dataprocessing/process_doc.py:76-80 | `Here is the data: {"a": 1} Thanks!` yields `{"a": 1}` |
| JsonSpan.ExtractSpanNeedsOpen | base64_processing.py:78-81 | text without `{` gives no span |
| JsonSpan.ExtractSpanNeedsClose | base64_processing.py:78-81 | text without `}` gives no span |
| JsonSpan.ExtractSpanClosedBeforeOpen | base64_processing.py:117-120 | when every `}` comes before every `{`, there is no span |
| Llm.ReconcilePrompt | base64_processing.py:105-109 | the system prompt is the fixed instruction followed by the template text verbatim, which therefore ends it |
| Llm.UserTurn | base64_processing.py:113 | the user turn is the fixed request prefix followed by the evidence text unchanged |
| Llm.ContextOfSingle | dataprocessing/openai_solution.py:85-90 | with a single result (`k=1`), the context text is that result's page content |
| Llm.ContextHoldsEveryResult | dataprocessing/process_doc.py:40 | every result's page content appears in the context, in result order, separated by `"\n\n---\n\n"` |
| Llm.ContextLength | dataprocessing/openai_solution.py:90 | the context's length is the page contents' total length plus one separator between neighbours |
| Llm.ReconcileReply | dataprocessing/process_doc.py:75-91 | a reply without a span gives None (both directions); a returned value is `json.loads` of the reply's span; a chat exception or a decode error escapes |
| Base64Processing.DataUrisArePrefix | base64_processing.py:20-32 | the images are the leading pages that encoded, each `data:image/png;base64,` plus its base64 text; the first page not covered is one whose save raised, so what was built before the exception is kept |
| Base64Processing.ImagesAreDataUris | base64_processing.py:27 | every returned image starts with `data:image/png;base64,` |
| Base64Processing.AllPagesEncoded | base64_processing.py:23-29 | when every page saves, there is one image per page |
| Base64Processing.PdfToBase64Images | base64_processing.py:18-32 | the conversion loop returns exactly the images above, and none when the rasteriser raised |
| Base64Processing.RequestContentShape | base64_processing.py:43-57 | the content list has 1 + (number of images) blocks: the instruction text first, then image `i` at position `i + 1` |
| Base64Processing.BuildMessages | base64_processing.py:43-57 | the loop produces one user message whose content is the instruction block followed by one `image_url` block per image, in input order |
| Base64Processing.ReplyText | base64_processing.py:77 | `choices[0].message.content` with each level defaulted: a missing level gives `"No insights."`; an empty `choices` list or a non-JSON body raises |
| Base64Processing.HandleResponse | base64_processing.py:76-96 | non-200 gives `"Error: Unable to fetch insights."`. A transport error, a non-JSON body, an empty `choices` list (the IndexError) and a decode error each give `"Error fetching insights: "` plus that error's message, with nothing written. A 200 reply with no span gives None. A span that parses gives the parsed value, which is also written to `extracted_data.json` |
| Base64Processing.MissingContentGivesNone | base64_processing.py:77-81 | a 200 reply without `content` falls back to `"No insights."` and so returns None, writing nothing |
| Base64Processing.FetchInsights | base64_processing.py:34-96 | with no image it returns `"No images generated from the PDF."` and sends nothing; otherwise it sends exactly the request for all images in page order and returns the handled response |
| Base64Processing.ReconcileConversation | base64_processing.py:101-113 | the system prompt ends with the template; the user turn shows whatever `fetch_insights` returned, even an error string or None |
| Base64Processing.MatchExtractedWithTemplate | base64_processing.py:99-134 | it sends the reconciliation conversation and returns the shared reply handling's outcome; it writes `output.json` only for a parsed value, after `extracted_data.json` |
| OpenAiSolution.SystemPrompt | dataprocessing/openai_solution.py:99-102 | this variant's shorter instruction, then the template text |
| OpenAiSolution.Evidence | dataprocessing/openai_solution.py:64-94 | missing or empty documents, chunks or results stop the chain. When all three exist and are non-empty, the evidence is exactly what the search (`k=1`) returned for the chunks |
| OpenAiSolution.GenerateContentFromLocalPdf | dataprocessing/openai_solution.py:60-131 | no evidence gives None with no model call. With evidence the model is always asked, with the joined context. The result is the parsed span of the reply, written to `./output/<id>_output.json`, and None when there is no span or the call or decode raised |
| OpenAiSolution.SingleChunkContext | dataprocessing/openai_solution.py:85-90 | with one retrieved chunk, the user turn carries exactly that chunk's content |
| ProcessDoc.SourcesPerResult | dataprocessing/process_doc.py:45 | one source per result, in result order; an entry is None exactly when the metadata lacks `"source"` |
| ProcessDoc.GenerateContentFromDocuments | dataprocessing/process_doc.py:25-56 | a failed store build or an empty or irrelevant result list gives None with no prompt. A built store whose gate passes always sends the formatted prompt with the joined context. An empty reply gives None; any other reply gives the dumped summary with `sources` (the closing `is not None` test always passes) |
| ProcessDoc.MatchOutput | dataprocessing/process_doc.py:59-93 | only an exception from the summary step prevents the model call; the user turn shows the summary or `None`; a parsed span is returned and written, exactly when present |
| ProcessDoc.NoneSummaryStillAsks | dataprocessing/process_doc.py:60-72 | when the summary step returns None, the model is still asked, with `"None"` as the evidence |
| App.NoDotRejected | app.py:29 | a filename without `.` is never allowed |
| App.AllowedByLastExtension | app.py:29 | the extension is the text after the last `.`, and the name is allowed exactly when its lower-cased extension is one of the six |
| App.AllowedIgnoresCase | app.py:29 | the decision does not depend on the letter case of the extension |
| App.DoubleExtensionRefused | app.py:29 | `report.pdf.exe` is refused |
| App.InnerExtensionIgnored | app.py:29 | `scan.tar.pdf` is accepted |
| App.UpperCaseAccepted | app.py:29 | `INVOICE.PDF` is accepted |
| App.TrailingDotRefused | app.py:20-29 | a name ending in `.` has an empty extension and is refused |
| App.ExecutableRefused | app.py:20-29 | `malware.exe` is refused |
| App.Screen | app.py:41-51 | the first failing check decides: no `file` part, then empty name, then disallowed type; otherwise the upload is accepted (each case in both directions) |
| App.AbsoluteFilenameEscapes | app.py:74 | an absolute client filename is saved at that absolute path, not inside the submission directory |
| App.RelativeFilenameJoined | app.py:49-52 | a relative filename is appended to `uploads/<id>` after exactly one `/`; `..` components are kept as they are, so such a name still escapes the folder |
| App.ParentStepsAllowed | app.py:20-29 | `../../evil.pdf` passes the type check |
| App.ParentStepsKept | app.py:49-52 | `../../evil.pdf` is saved at `uploads/id/../../evil.pdf`, outside the submission folder |
| App.UploadStore.constructor | app.py:19-24 | loading the module creates the upload folder |
| App.UploadStore.UploadFile | app.py:40-57 | 400 with the first failing check's message; on a type failure the new directory remains and no file is saved; on success the file is saved at the path built from the returned id and filename, with status 200 |
| App.UploadStore.DocumentProcessing | app.py:62-85 | the same checks and effects. On success the image pipeline runs on the saved path. Its result becomes `application_details`, or its exception escapes the route. Every artifact it writes is given in order: `extracted_data.json` when `fetch_insights` parsed a span, then `output.json` when the reconciliation returned a value |

## Behaviour worth knowing

The code behaves as follows, and the model does the same:

- An empty rendering does not end the pipeline. `fetch_insights` returns the
  string `"No images generated from the PDF."`, and
  `match_extracted_with_template` still sends that string to the
  reconciliation model.
- A decode error inside `fetch_insights` becomes a returned string
  (`"Error fetching insights: ..."`), not a failure. That string is then
  passed on as evidence.
- A failed reconciliation still answers 200: `application_details` is
  `null` when the reply has no span.
- Image uploads are not passed through. The rasteriser receives the PNG or
  JPEG path like any other file.
- Output paths differ between variants: `./output/<id>/output.json` in the
  image pipeline and `./output/<id>_output.json` in both retrieval variants.
  Each is kept as written.
- The local-PDF variant's system prompt does not ask for blank fields.

## Left out

- ProcessDoc.SourcesPerResult: document metadata values are modelled as strings, so a `source` key that is present with the value None is not modelled. `metadata.get("source", None)` returns None for that key too.

- Flask routing, CORS, the secret key, the `/` route and `jsonify`. A route's
  uncaught exception is `Reply.Unhandled`; the 500 response Flask makes of it
  is not modelled.
- `uuid4`: the submission id is a parameter.
- PDF rasterising, PNG saving and base64 encoding are abstract functions.
  Nothing is claimed about the base64 alphabet.
- The HTTP POST, the API key header and both chat clients are functions from
  the request or conversation to the reply.
- `json.loads`, `json.dump`, `json.dumps` and `str()` of a parsed value are
  abstract functions. No JSON grammar is modelled.
- langchain's loaders, text splitter and prompt formatting, and Chroma, are
  abstract functions. The local-PDF variant's Chroma persist directory is not
  modelled.
- `generate_data_store` and the rest of dataprocessing/create_database.py are
  not part of this model. `generate_data_store` is a boolean-valued
  parameter.
- dataprocessing/gemini_solution.py is not part of this model. It is
  orchestration with no bracket scan.
- The relevance threshold `results[0][1] < 0.5` is a float comparison. It is
  the abstract predicate `belowThreshold`; only the emptiness test and its
  short-circuit are modelled.
- Filesystem effects of the pipelines: creating output directories and
  writing JSON are recorded as returned `Artifact`s and always succeed. The
  upload record `UploadStore` keeps only the upload directory and the saved
  file.
- Exceptions not listed above are not modelled. This covers a failing
  template read, a non-string `content`, a `choices[0]` that is not an object,
  and failures of Chroma or the search in dataprocessing/process_doc.py.
- `print` diagnostics and the `finally: print(...)` blocks.
- Template conformance. Whether the reconciled JSON mirrors the template's
  shape, with blank fields where nothing was found, depends on the remote
  model. The source never checks it, and the model states nothing about it.
- Strings are `seq<char>`. A Dafny `char` is a Unicode scalar value, as an
  element of a Python `str` is (lone surrogates aside), so `find`, `rfind`
  and slicing index the same positions.
- PyStr.Lower: only ASCII letters are lowered. For the extension check this
  is exact. Python's `str.lower` maps a non-ASCII character either to
  non-ASCII text or, for the Kelvin sign, to `k`, and no allowed extension
  contains `k`. So neither form can turn a non-ASCII extension into an
  allowed one.
