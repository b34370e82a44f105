/** What the pipelines exchange with the remote chat models and the vector
    store, kept apart from the transport: a model call is a function from the
    conversation sent to the reply received. */
module Llm {
  import opened Wrappers
  import opened PyStr
  import opened JsonSpan

  /** A system instruction followed by one user turn. */
  datatype Conversation = Conversation(system: string, user: string)

  /** A chat client's answer: the reply's text, or the exception it raised. */
  datatype ChatReply = Replied(text: string) | ChatFailed(error: string)

  /** `json.loads` on a span: the parsed value, or the decode error's message. */
  datatype ParseResult<J> = Parsed(value: J) | ParseError(message: string)

  /** A JSON value written with `json.dump` to `path`. */
  datatype Artifact<J> = Artifact(path: string, value: J)

  /** A retrieved chunk: its `page_content` and its `metadata`. */
  datatype Document = Document(pageContent: string, metadata: map<string, string>)

  /** The common opening of the reconciliation system prompt. */
  const PromptIntro: string :=
    "You are an AI assistant specialized in extracting information from a document." +
    "Please analyze the provided text and extract information in the following JSON format:"

  /** The full reconciliation instruction of the image and retrieval
      variants; the local-PDF variant has a shorter one of its own. */
  const ReconcileInstruction: string :=
    PromptIntro +
    "replace the <value> with actual value and keep field blank if value is not found." +
    "Return the full structure given below:"

  /** The opening of every user turn; the evidence text follows it. */
  const UserPrefix: string := "Please extract the information from the following text:\n\n"

  /** What joins retrieved page contents into one context text. */
  const ContextSeparator: string := "\n\n---\n\n"

  /** The system prompt of the reconciliation call: the instruction, then the
      template file's text verbatim. */
  function ReconcilePrompt(structure: string): (r: string)
    ensures |r| == |ReconcileInstruction| + |structure|
    ensures r[..|ReconcileInstruction|] == ReconcileInstruction
    ensures r[|r| - |structure|..] == structure
  {
    ReconcileInstruction + structure
  }

  /** The user turn carrying `evidence` (the text of whatever the previous
      stage produced). */
  function UserTurn(evidence: string): (r: string)
    ensures |r| == |UserPrefix| + |evidence|
    ensures r[..|UserPrefix|] == UserPrefix && r[|UserPrefix|..] == evidence
  {
    UserPrefix + evidence
  }

  /** The page contents of search results, in result order. */
  function PageContents<S>(results: seq<(Document, S)>): seq<string>
  {
    seq(|results|, i requires 0 <= i < |results| => results[i].0.pageContent)
  }

  /** `"\n\n---\n\n".join([doc.page_content for doc, _ in results])`. */
  function ContextText<S>(results: seq<(Document, S)>): string
  {
    Join(ContextSeparator, PageContents(results))
  }

  /** One result's context is its page content alone. */
  lemma ContextOfSingle<S>(result: (Document, S))
    ensures ContextText([result]) == result.0.pageContent
  {
    assert PageContents([result]) == [result.0.pageContent];
  }

  /** Every result's page content occurs in the context, in result order, at
      its own offset, and the separator follows all but the last. */
  lemma ContextHoldsEveryResult<S>(results: seq<(Document, S)>, i: nat)
    requires i < |results|
    ensures var parts := PageContents(results);
      var at := PartStart(ContextSeparator, parts, i);
      var context := ContextText(results);
      at + |results[i].0.pageContent| <= |context| &&
      context[at .. at + |results[i].0.pageContent|] == results[i].0.pageContent &&
      (i + 1 < |results| ==>
        at + |results[i].0.pageContent| + |ContextSeparator| <= |context| &&
        context[at + |results[i].0.pageContent| .. at + |results[i].0.pageContent| + |ContextSeparator|] == ContextSeparator)
  {
    JoinPart(ContextSeparator, PageContents(results), i);
  }

  /** The context is as long as the page contents plus one separator between
      neighbours. */
  lemma ContextLength<S>(results: seq<(Document, S)>)
    requires |results| > 0
    ensures |ContextText(results)| == TotalLength(PageContents(results)) + (|results| - 1) * |ContextSeparator|
  {
    JoinLength(ContextSeparator, PageContents(results));
  }

  /** The reconciliation output path of the retrieval variants. */
  function FlatOutputPath(submissionId: string): string
  {
    "./output/" + submissionId + "_output.json"
  }

  /** `str(data)` for an optional string: the string itself, or "None". */
  function ShowOptional(data: Option<string>): string
  {
    match data
    case Some(s) => s
    case None => "None"
  }

  /** The reply handling shared by both reconciliation calls, whose `try`
      has only a `finally`: a chat exception or a decode error escapes, a
      reply without a span gives None, the parsed span is returned. */
  function ReconcileReply<J>(reply: ChatReply, loads: string -> ParseResult<J>): (r: Outcome<Option<J>>)
    ensures r == Returned(None) <==> reply.Replied? && ExtractSpan(reply.text).None?
    ensures r.Returned? && r.value.Some? ==>
      reply.Replied? && ExtractSpan(reply.text).Some? &&
      loads(ExtractSpan(reply.text).value) == Parsed(r.value.value)
    ensures r.Raised? <==>
      reply.ChatFailed? ||
      (ExtractSpan(reply.text).Some? && loads(ExtractSpan(reply.text).value).ParseError?)
    ensures reply.ChatFailed? ==> r == Raised(reply.error)
  {
    match reply
    case ChatFailed(e) => Raised(e)
    case Replied(text) =>
      match ExtractSpan(text)
      case None => Returned(None)
      case Some(span) =>
        match loads(span)
        case ParseError(m) => Raised(m)
        case Parsed(v) => Returned(Some(v))
  }
}
