/** The image-based extraction pipeline: render the PDF, send every page as a
    data URI to the multimodal completion endpoint, bracket-scan the reply,
    then reconcile the result against the template with a second chat call. */
module Base64Processing {
  import opened Wrappers
  import opened JsonSpan
  import opened Llm

  newtype byte = x: int | 0 <= x < 256
  type Bytes = seq<byte>

  /** What the PDF rasteriser gives back: the page images, or the exception
      it raised. */
  datatype Render<P> = Rendered(pages: seq<P>) | RenderFailed(error: string)

  /** One element of the user message's content list. */
  datatype ContentBlock = TextBlock(text: string) | ImageUrlBlock(url: string)

  datatype Message = Message(role: string, content: seq<ContentBlock>)

  /** The JSON payload posted to the completion endpoint. */
  datatype ChatRequest = ChatRequest(model: string, messages: seq<Message>, maxTokens: int, temperature: int)

  /** The parts of the endpoint's JSON answer that `fetch_insights` reads:
      `choices[0].message.content`, each level possibly absent. A body that is
      not JSON makes `response.json()` raise with the given message. */
  datatype ResponseBody = Body(choices: Option<seq<Choice>>) | NotJson(error: string)
  datatype Choice = Choice(message: Option<ChoiceMessage>)
  datatype ChoiceMessage = ChoiceMessage(content: Option<string>)

  /** The HTTP exchange: a status and body, or the exception `requests.post`
      raised. */
  datatype Transport = Responded(status: int, body: ResponseBody) | TransportFailed(error: string)

  /** The three kinds of value `fetch_insights` returns: a message string,
      the parsed JSON, or None. */
  datatype PyValue<J> = StrValue(text: string) | JsonValue(value: J) | NoneValue

  /** The foreign code the pipeline calls: the rasteriser, PNG saving,
      base64 encoding, the HTTP POST, `json.loads`, `str()` of a parsed value,
      reading a file, and the chat model. */
  datatype Services<!P, !J> = Services(
    rasterise: (string, int) -> Render<P>,
    savePng: P -> Option<Bytes>,
    b64encode: Bytes -> string,
    post: (string, ChatRequest) -> Transport,
    loads: string -> ParseResult<J>,
    repr: J -> string,
    readFile: string -> string,
    invoke: Conversation -> ChatReply)

  const DefaultDpi: int := 200
  const DataUriPrefix: string := "data:image/png;base64,"
  const Endpoint: string := "https://api.openai.com/v1/chat/completions"
  const Model: string := "gpt-4o"
  const MaxTokens: int := 2000
  const Temperature: int := 0
  const Instruction: string := "Extract all information from the document in JSON format"
  const NoImagesText: string := "No images generated from the PDF."
  const ApiErrorText: string := "Error: Unable to fetch insights."
  const ErrorPrefix: string := "Error fetching insights: "
  const NoInsightsText: string := "No insights."
  /** `str()` of the IndexError raised by `[][0]`. */
  const IndexErrorText: string := "list index out of range"
  const TemplatePath: string := "sample/template/template.json"

  function ExtractedDataPath(submissionId: string): string
  {
    "./output/" + submissionId + "/extracted_data.json"
  }

  function OutputPath(submissionId: string): string
  {
    "./output/" + submissionId + "/output.json"
  }

  /** `str(value)` for the values `fetch_insights` returns. */
  function Show<J>(value: PyValue<J>, repr: J -> string): string
  {
    match value
    case StrValue(s) => s
    case JsonValue(j) => repr(j)
    case NoneValue => "None"
  }

  // ---------------------------------------------------------------------
  // pdf_to_base64_images

  /** The data URIs of `pages`, in page order, up to the first page whose PNG
      save raised: the exception ends the loop and what was built is kept. */
  function DataUris<P>(pages: seq<P>, savePng: P -> Option<Bytes>, b64: Bytes -> string): seq<string>
  {
    if |pages| == 0 then []
    else match savePng(pages[0])
      case None => []
      case Some(png) => [DataUriPrefix + b64(png)] + DataUris(pages[1..], savePng, b64)
  }

  /** The images for a rendering outcome: none when the rasteriser raised. */
  function PageImages<P>(render: Render<P>, savePng: P -> Option<Bytes>, b64: Bytes -> string): seq<string>
  {
    match render
    case RenderFailed(_) => []
    case Rendered(pages) => DataUris(pages, savePng, b64)
  }

  /** The images are the leading pages that encoded, each the PNG prefix plus
      its base64 text; the first page not covered is one whose save failed. */
  lemma {:induction false} DataUrisArePrefix<P>(pages: seq<P>, savePng: P -> Option<Bytes>, b64: Bytes -> string)
    ensures var r := DataUris(pages, savePng, b64);
      |r| <= |pages| &&
      (forall i :: 0 <= i < |r| ==>
         savePng(pages[i]).Some? && r[i] == DataUriPrefix + b64(savePng(pages[i]).value)) &&
      (|r| < |pages| ==> savePng(pages[|r|]).None?)
  {
    if |pages| > 0 && savePng(pages[0]).Some? {
      DataUrisArePrefix(pages[1..], savePng, b64);
    }
  }

  /** Every image handed to the request is a PNG data URI. */
  lemma ImagesAreDataUris<P>(render: Render<P>, savePng: P -> Option<Bytes>, b64: Bytes -> string)
    ensures forall i :: 0 <= i < |PageImages(render, savePng, b64)| ==>
      |PageImages(render, savePng, b64)[i]| >= |DataUriPrefix| &&
      PageImages(render, savePng, b64)[i][..|DataUriPrefix|] == DataUriPrefix
  {
    if render.Rendered? {
      DataUrisArePrefix(render.pages, savePng, b64);
    }
  }

  /** When every page saves, there is one image per page. */
  lemma AllPagesEncoded<P>(pages: seq<P>, savePng: P -> Option<Bytes>, b64: Bytes -> string)
    requires forall i :: 0 <= i < |pages| ==> savePng(pages[i]).Some?
    ensures |DataUris(pages, savePng, b64)| == |pages|
  {
    DataUrisArePrefix(pages, savePng, b64);
  }

  /** The conversion loop: each page is saved as PNG, base64-encoded and
      prefixed; an exception ends the loop and keeps what was built. */
  method PdfToBase64Images<P>(pdfPath: string, dpi: int, rasterise: (string, int) -> Render<P>,
                              savePng: P -> Option<Bytes>, b64: Bytes -> string)
    returns (images: seq<string>)
    ensures images == PageImages(rasterise(pdfPath, dpi), savePng, b64)
  {
    images := [];
    var render := rasterise(pdfPath, dpi);
    if render.RenderFailed? {
      return;
    }
    var pages := render.pages;
    var i := 0;
    while i < |pages|
      invariant 0 <= i <= |pages|
      invariant images + DataUris(pages[i..], savePng, b64) == DataUris(pages, savePng, b64)
    {
      var png := savePng(pages[i]);
      if png.None? {
        break;
      }
      assert DataUris(pages[i..], savePng, b64) == [DataUriPrefix + b64(png.value)] + DataUris(pages[i + 1..], savePng, b64);
      images := images + [DataUriPrefix + b64(png.value)];
      i := i + 1;
    }
  }

  // ---------------------------------------------------------------------
  // fetch_insights: payload

  /** The user message's content: the instruction block, then one
      `image_url` block per image, in image order. */
  function RequestContent(images: seq<string>): seq<ContentBlock>
  {
    [TextBlock(Instruction)] + seq(|images|, i requires 0 <= i < |images| => ImageUrlBlock(images[i]))
  }

  function RequestFor(images: seq<string>): ChatRequest
  {
    ChatRequest(Model, [Message("user", RequestContent(images))], MaxTokens, Temperature)
  }

  /** The content list holds one block more than there are images: the
      instruction first, then image `i` at position `i + 1`. */
  lemma RequestContentShape(images: seq<string>)
    ensures |RequestContent(images)| == 1 + |images|
    ensures RequestContent(images)[0] == TextBlock(Instruction)
    ensures forall i :: 0 <= i < |images| ==> RequestContent(images)[i + 1] == ImageUrlBlock(images[i])
  {
  }

  /** Builds `messages` with a single user message and appends one image
      block to its content per image. */
  method BuildMessages(images: seq<string>) returns (messages: seq<Message>)
    ensures |messages| == 1 && messages[0].role == "user"
    ensures |messages[0].content| == 1 + |images|
    ensures messages[0].content[0] == TextBlock(Instruction)
    ensures forall i :: 0 <= i < |images| ==> messages[0].content[i + 1] == ImageUrlBlock(images[i])
  {
    messages := [Message("user", [TextBlock(Instruction)])];
    for i := 0 to |images|
      invariant |messages| == 1 && messages[0].role == "user"
      invariant |messages[0].content| == 1 + i
      invariant messages[0].content[0] == TextBlock(Instruction)
      invariant forall k :: 0 <= k < i ==> messages[0].content[k + 1] == ImageUrlBlock(images[k])
    {
      messages := [messages[0].(content := messages[0].content + [ImageUrlBlock(images[i])])];
    }
  }

  // ---------------------------------------------------------------------
  // fetch_insights: reply handling

  /** `response.json().get("choices", [{}])[0].get("message", {}).get("content", "No insights.")`. */
  function ReplyText(body: ResponseBody): (r: Outcome<string>)
    ensures r.Raised? <==> body.NotJson? || body.choices == Some([])
    ensures body.NotJson? ==> r == Raised(body.error)
    ensures body.Body? && body.choices == Some([]) ==> r == Raised(IndexErrorText)
    ensures body.Body? && body.choices.None? ==> r == Returned(NoInsightsText)
    ensures body.Body? && body.choices.Some? && |body.choices.value| > 0 ==>
      var m := body.choices.value[0].message;
      r == Returned(if m.Some? && m.value.content.Some? then m.value.content.value else NoInsightsText)
  {
    match body
    case NotJson(e) => Raised(e)
    case Body(choices) =>
      var cs := choices.GetOr([Choice(None)]);
      if |cs| == 0 then Raised(IndexErrorText)
      else
        var content := cs[0].message.GetOr(ChoiceMessage(None)).content;
        Returned(content.GetOr(NoInsightsText))
  }

  /** What `fetch_insights` does with the endpoint's answer once the request
      was sent: the value it returns and the artifact it writes. Every
      exception raised in between is caught and turned into an error string. */
  function HandleResponse<J>(response: Transport, submissionId: string, loads: string -> ParseResult<J>)
    : (r: (PyValue<J>, Option<Artifact<J>>))
    ensures response.TransportFailed? ==> r == (StrValue(ErrorPrefix + response.error), None)
    ensures response.Responded? && response.status != 200 ==> r == (StrValue(ApiErrorText), None)
    ensures r.1.Some? <==> r.0.JsonValue?
    ensures r.0.JsonValue? ==>
      r.1 == Some(Artifact(ExtractedDataPath(submissionId), r.0.value)) &&
      response.Responded? && response.status == 200 &&
      ReplyText(response.body).Returned? &&
      ExtractSpan(ReplyText(response.body).value).Some? &&
      loads(ExtractSpan(ReplyText(response.body).value).value) == Parsed(r.0.value)
    ensures r.0.NoneValue? <==>
      response.Responded? && response.status == 200 &&
      ReplyText(response.body).Returned? && ExtractSpan(ReplyText(response.body).value).None?
    ensures response.Responded? && response.status == 200 && ReplyText(response.body).Raised? ==>
      r == (StrValue(ErrorPrefix + ReplyText(response.body).error), None)
    ensures (response.Responded? && response.status == 200 && ReplyText(response.body).Returned? &&
             ExtractSpan(ReplyText(response.body).value).Some?) ==>
        match loads(ExtractSpan(ReplyText(response.body).value).value)
        case ParseError(m) => r == (StrValue(ErrorPrefix + m), None)
        case Parsed(v) => r == (JsonValue(v), Some(Artifact(ExtractedDataPath(submissionId), v)))
  {
    match response
    case TransportFailed(e) => (StrValue(ErrorPrefix + e), None)
    case Responded(status, body) =>
      if status == 200 then
        match ReplyText(body)
        case Raised(e) => (StrValue(ErrorPrefix + e), None)
        case Returned(text) =>
          match ExtractSpan(text)
          case None => (NoneValue, None)
          case Some(span) =>
            match loads(span)
            case ParseError(m) => (StrValue(ErrorPrefix + m), None)
            case Parsed(v) => (JsonValue(v), Some(Artifact(ExtractedDataPath(submissionId), v)))
      else
        (StrValue(ApiErrorText), None)
  }

  /** A successful reply whose body has no `content` falls back to
      "No insights.", which has no brace, so `fetch_insights` returns None. */
  lemma MissingContentGivesNone<J>(body: ResponseBody, submissionId: string, loads: string -> ParseResult<J>)
    requires ReplyText(body) == Returned(NoInsightsText)
    ensures HandleResponse(Responded(200, body), submissionId, loads) == (NoneValue, None)
  {
    ExtractSpanNeedsOpen(NoInsightsText);
  }

  /** What `fetch_insights(pdf_path, submission_id)` returns and writes. */
  function InsightsOf<P, J>(pdfPath: string, submissionId: string, svc: Services<P, J>): (PyValue<J>, Option<Artifact<J>>)
  {
    var images := PageImages(svc.rasterise(pdfPath, DefaultDpi), svc.savePng, svc.b64encode);
    if |images| == 0 then (StrValue(NoImagesText), None)
    else HandleResponse(svc.post(Endpoint, RequestFor(images)), submissionId, svc.loads)
  }

  /** `fetch_insights`: with no image nothing is sent; otherwise exactly one
      request, carrying every image in page order, is posted. */
  method FetchInsights<P, J>(pdfPath: string, submissionId: string, svc: Services<P, J>)
    returns (result: PyValue<J>, sent: Option<ChatRequest>, written: Option<Artifact<J>>)
    ensures (result, written) == InsightsOf(pdfPath, submissionId, svc)
    ensures var images := PageImages(svc.rasterise(pdfPath, DefaultDpi), svc.savePng, svc.b64encode);
      (sent.None? <==> images == []) &&
      (sent.None? ==> result == StrValue(NoImagesText) && written.None?) &&
      (sent.Some? ==> sent.value == RequestFor(images))
  {
    var images := PdfToBase64Images(pdfPath, DefaultDpi, svc.rasterise, svc.savePng, svc.b64encode);
    if |images| == 0 {
      return StrValue(NoImagesText), None, None;
    }
    var messages := BuildMessages(images);
    assert messages[0].content == RequestContent(images);
    assert messages == [Message("user", RequestContent(images))];
    var request := ChatRequest(Model, messages, MaxTokens, Temperature);
    assert request == RequestFor(images);
    sent := Some(request);
    var handled := HandleResponse(svc.post(Endpoint, request), submissionId, svc.loads);
    result, written := handled.0, handled.1;
  }

  // ---------------------------------------------------------------------
  // match_extracted_with_template

  /** The conversation of the reconciliation call: the template behind the
      instruction, and `str()` of whatever `fetch_insights` returned, even an
      error string or None, as the evidence. */
  function ReconcileConversation<P, J>(filePath: string, submissionId: string, svc: Services<P, J>): (c: Conversation)
    ensures var structure := svc.readFile(TemplatePath);
      |c.system| >= |structure| && c.system[|c.system| - |structure|..] == structure
    ensures c.user == UserTurn(Show(InsightsOf(filePath, submissionId, svc).0, svc.repr))
  {
    Conversation(ReconcilePrompt(svc.readFile(TemplatePath)), UserTurn(Show(InsightsOf(filePath, submissionId, svc).0, svc.repr)))
  }

  /** The reconciliation call: whatever `fetch_insights` returned is shown in
      the user turn and the template in the system prompt; a span in the
      reply is parsed, written to `output.json` and returned. */
  method MatchExtractedWithTemplate<P, J>(filePath: string, submissionId: string, svc: Services<P, J>)
    returns (out: Outcome<Option<J>>, conversation: Conversation, artifacts: seq<Artifact<J>>)
    ensures conversation == ReconcileConversation(filePath, submissionId, svc)
    ensures out == ReconcileReply(svc.invoke(conversation), svc.loads)
    ensures var prior := InsightsOf(filePath, submissionId, svc).1;
      artifacts ==
        (if prior.Some? then [prior.value] else []) +
        (if out.Returned? && out.value.Some? then [Artifact(OutputPath(submissionId), out.value.value)] else [])
  {
    var data, _, extracted := FetchInsights(filePath, submissionId, svc);
    var structure := svc.readFile(TemplatePath);
    conversation := Conversation(ReconcilePrompt(structure), UserTurn(Show(data, svc.repr)));
    artifacts := if extracted.Some? then [extracted.value] else [];
    out := ReconcileReply(svc.invoke(conversation), svc.loads);
    if out.Returned? && out.value.Some? {
      artifacts := artifacts + [Artifact(OutputPath(submissionId), out.value.value)];
    }
  }
}
