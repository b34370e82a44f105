/** The directory-store retrieval variant: build a vector store for the
    submission, retrieve the three best chunks, ask the model for a summary
    with its sources, then reconcile that summary against the template. */
module ProcessDoc {
  import opened Wrappers
  import opened JsonSpan
  import opened Llm

  /** The object `json.dumps` serialises for a summary. */
  datatype Summary = Summary(response: string, sources: seq<Option<string>>, date: string)

  /** The library calls: `generate_data_store(submission_id)`, the similarity
      search over the store at a path, the relevance test `score < 0.5` (a
      float comparison, left abstract), `ChatPromptTemplate` formatting of
      (template, context, question), `model.predict`, `json.dumps`, today's
      date as `%Y-%m-%d`, reading a file, the chat model and `json.loads`. */
  datatype RetrievalServices<!S, J> = RetrievalServices(
    buildStore: string -> bool,
    search: (string, string, nat) -> seq<(Document, S)>,
    belowThreshold: S -> bool,
    formatPrompt: (string, string, string) -> string,
    predict: string -> ChatReply,
    dumps: Summary -> string,
    today: string,
    readFile: string -> string,
    invoke: Conversation -> ChatReply,
    loads: string -> ParseResult<J>)

  const Query: string := "extract all the details in json format "
  const K: nat := 3
  const TemplatePath: string := "../sample/template/template.json"
  const PromptTemplate: string :=
    "\nAnswer the question based only on the following context don't give reference:\n{context}\n---\n" +
    "Answer the question based on the above context : {question}\n"

  function ChromaPath(submissionId: string): string
  {
    "./chroma/" + submissionId
  }

  /** `doc.metadata.get("source", None)`. */
  function SourceOf<S>(result: (Document, S)): Option<string>
  {
    if "source" in result.0.metadata then Some(result.0.metadata["source"]) else None
  }

  /** `[doc.metadata.get("source", None) for doc, _score in results]`. */
  function Sources<S>(results: seq<(Document, S)>): seq<Option<string>>
  {
    if |results| == 0 then [] else [SourceOf(results[0])] + Sources(results[1..])
  }

  /** One source entry per result, in result order; an entry is None exactly
      when that result's metadata has no "source". */
  lemma {:induction false} SourcesPerResult<S>(results: seq<(Document, S)>)
    ensures |Sources(results)| == |results|
    ensures forall i :: 0 <= i < |results| ==>
      (Sources(results)[i].None? <==> "source" !in results[i].0.metadata) &&
      (Sources(results)[i].Some? ==> Sources(results)[i].value == results[i].0.metadata["source"])
  {
    if |results| > 0 {
      SourcesPerResult(results[1..]);
      assert forall i :: 1 <= i < |results| ==> Sources(results)[i] == Sources(results[1..])[i - 1];
    }
  }

  /** The relevance gate: there is a first result and its score is not below
      the threshold. The emptiness test comes first, so an empty list is
      rejected without reading `results[0]`. */
  predicate PassesGate<S>(results: seq<(Document, S)>, belowThreshold: S -> bool)
  {
    !(|results| == 0 || belowThreshold(results[0].1))
  }

  /** What one call sent to the model and how it ended. */
  datatype DocRun = DocRun(prompt: Option<string>, out: Outcome<Option<string>>)

  /** `generate_content_from_documents`. */
  function GenerateContentFromDocuments<S, J>(submissionId: string, svc: RetrievalServices<S, J>): (run: DocRun)
    ensures !svc.buildStore(submissionId) ==> run == DocRun(None, Returned(None))
    ensures var results := svc.search(ChromaPath(submissionId), Query, K);
      svc.buildStore(submissionId) && !PassesGate(results, svc.belowThreshold) ==>
        run == DocRun(None, Returned(None))
    ensures var results := svc.search(ChromaPath(submissionId), Query, K);
      svc.buildStore(submissionId) && PassesGate(results, svc.belowThreshold) ==>
        run.prompt == Some(svc.formatPrompt(PromptTemplate, ContextText(results), Query))
    ensures run.prompt.Some? ==>
      var results := svc.search(ChromaPath(submissionId), Query, K);
      svc.buildStore(submissionId) && |results| > 0 && PassesGate(results, svc.belowThreshold) &&
      run.prompt.value == svc.formatPrompt(PromptTemplate, ContextText(results), Query)
    ensures run.prompt.Some? ==>
      match svc.predict(run.prompt.value)
      case ChatFailed(e) => run.out == Raised(e)
      case Replied(text) =>
        run.out == Returned(
          if text == "" then None
          else Some(svc.dumps(Summary(text, Sources(svc.search(ChromaPath(submissionId), Query, K)), svc.today))))
  {
    if !svc.buildStore(submissionId) then DocRun(None, Returned(None))
    else
      var results := svc.search(ChromaPath(submissionId), Query, K);
      if |results| == 0 || svc.belowThreshold(results[0].1) then DocRun(None, Returned(None))
      else
        var prompt := svc.formatPrompt(PromptTemplate, ContextText(results), Query);
        match svc.predict(prompt)
        case ChatFailed(e) => DocRun(Some(prompt), Raised(e))
        case Replied(text) =>
          var sources := Sources(results);
          if text == "" then DocRun(Some(prompt), Returned(None))
          else
            var formatted := svc.dumps(Summary(text, sources, svc.today));
            // the closing `response_text is not None` test always holds: a reply is a string
            DocRun(Some(prompt), Returned(Some(formatted)))
  }

  /** What `match_output` sent, wrote and how it ended. */
  datatype MatchRun<J> = MatchRun(sent: Option<Conversation>, written: Option<Artifact<J>>, out: Outcome<Option<J>>)

  /** `match_output`: the model is asked even when the summary step gave
      None, with "None" as the evidence; only an exception from that step
      prevents the call. */
  function MatchOutput<S, J>(submissionId: string, svc: RetrievalServices<S, J>): (run: MatchRun<J>)
    ensures var data := GenerateContentFromDocuments(submissionId, svc).out;
      (data.Raised? ==> run == MatchRun(None, None, Raised(data.error))) &&
      (data.Returned? ==>
         run.sent == Some(Conversation(ReconcilePrompt(svc.readFile(TemplatePath)), UserTurn(ShowOptional(data.value)))))
    ensures run.sent.Some? ==> run.out == ReconcileReply(svc.invoke(run.sent.value), svc.loads)
    ensures run.written.Some? <==> run.out.Returned? && run.out.value.Some?
    ensures run.written.Some? ==> run.written.value == Artifact(FlatOutputPath(submissionId), run.out.value.value)
  {
    match GenerateContentFromDocuments(submissionId, svc).out
    case Raised(e) => MatchRun(None, None, Raised(e))
    case Returned(data) =>
      var conversation := Conversation(ReconcilePrompt(svc.readFile(TemplatePath)), UserTurn(ShowOptional(data)));
      var out := ReconcileReply(svc.invoke(conversation), svc.loads);
      var written := if out.Returned? && out.value.Some? then Some(Artifact(FlatOutputPath(submissionId), out.value.value)) else None;
      MatchRun(Some(conversation), written, out)
  }

  /** When the summary step returns None, the reconciliation still runs, and
      its user turn ends with the text "None". */
  lemma NoneSummaryStillAsks<S, J>(submissionId: string, svc: RetrievalServices<S, J>)
    requires GenerateContentFromDocuments(submissionId, svc).out == Returned(None)
    ensures MatchOutput(submissionId, svc).sent == Some(Conversation(ReconcilePrompt(svc.readFile(TemplatePath)), UserPrefix + "None"))
  {
  }
}
