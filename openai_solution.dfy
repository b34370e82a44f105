/** The local-PDF retrieval variant: load and split the PDF, index the
    chunks, retrieve the single best chunk, and ask the chat model to fill the
    template from it. Every failure along the way gives None. */
module OpenAiSolution {
  import opened Wrappers
  import opened JsonSpan
  import opened Llm

  /** The library calls: `PyPDFLoader(path).load()` and `split_documents`
      (None when they raised), indexing plus
      `similarity_search_with_relevance_scores(query, k)` (None when either
      raised), reading a file, the chat model and `json.loads`. */
  datatype LocalServices<S, J> = LocalServices(
    load: string -> Option<seq<Document>>,
    split: seq<Document> -> Option<seq<Document>>,
    search: (seq<Document>, string, nat) -> Option<seq<(Document, S)>>,
    readFile: string -> string,
    invoke: Conversation -> ChatReply,
    loads: string -> ParseResult<J>)

  const Query: string := "Extract all the details from the document in a structured JSON format."
  const K: nat := 1
  const TemplatePath: string := "../sample/template/template.json"

  /** This variant's shorter instruction: it does not ask for blank fields. */
  const Instruction: string := PromptIntro + "replace the <value> with actual value"

  function SystemPrompt(structure: string): (r: string)
    ensures |r| == |Instruction| + |structure|
    ensures r[..|Instruction|] == Instruction && r[|Instruction|..] == structure
  {
    Instruction + structure
  }

  /** What one call sent to the chat model, wrote and returned. */
  datatype LocalRun<J> = LocalRun(sent: Option<Conversation>, written: Option<Artifact<J>>, result: Option<J>)

  /** The early-exit chain before the model call: the search results, or
      None when the documents, the chunks or the results are missing or
      empty. */
  function Evidence<S, J>(filePath: string, svc: LocalServices<S, J>): (r: Option<seq<(Document, S)>>)
    ensures r.Some? ==> |r.value| > 0
    ensures var documents := svc.load(filePath);
      (documents.None? || documents.value == []) ==> r.None?
    ensures var documents := svc.load(filePath);
      (documents.Some? && documents.value != [] &&
       (svc.split(documents.value).None? || svc.split(documents.value).value == [])) ==> r.None?
    ensures var documents := svc.load(filePath);
      (documents.Some? && documents.value != [] &&
       svc.split(documents.value).Some? && svc.split(documents.value).value != [] &&
       var results := svc.search(svc.split(documents.value).value, Query, K);
       results.None? || results.value == []) ==> r.None?
    ensures r.Some? ==>
      var documents := svc.load(filePath);
      documents.Some? && svc.split(documents.value).Some? &&
      svc.search(svc.split(documents.value).value, Query, K) == r
    ensures var documents := svc.load(filePath);
      (documents.Some? && documents.value != [] &&
       svc.split(documents.value).Some? && svc.split(documents.value).value != [] &&
       var results := svc.search(svc.split(documents.value).value, Query, K);
       results.Some? && results.value != []) ==>
        r == svc.search(svc.split(documents.value).value, Query, K)
  {
    var documents := svc.load(filePath);
    if documents.None? || |documents.value| == 0 then None
    else
      var chunks := svc.split(documents.value);
      if chunks.None? || |chunks.value| == 0 then None
      else
        var results := svc.search(chunks.value, Query, K);
        if results.None? || |results.value| == 0 then None else results
  }

  /** `generate_content_from_local_pdf`. */
  function GenerateContentFromLocalPdf<S, J>(submissionId: string, filePath: string, svc: LocalServices<S, J>)
    : (run: LocalRun<J>)
    ensures Evidence(filePath, svc).None? ==> run == LocalRun(None, None, None)
    ensures Evidence(filePath, svc).Some? ==> run.sent.Some?
    ensures run.sent.Some? ==>
      run.result == (var o := ReconcileReply(svc.invoke(run.sent.value), svc.loads);
                     if o.Returned? then o.value else None)
    ensures run.sent.Some? ==>
      Evidence(filePath, svc).Some? &&
      run.sent.value == Conversation(SystemPrompt(svc.readFile(TemplatePath)),
                                     UserTurn(ContextText(Evidence(filePath, svc).value)))
    ensures run.written.Some? <==> run.result.Some?
    ensures run.result.Some? ==>
      run.sent.Some? &&
      run.written == Some(Artifact(FlatOutputPath(submissionId), run.result.value)) &&
      ReconcileReply(svc.invoke(run.sent.value), svc.loads) == Returned(run.result)
    ensures run.sent.Some? && !ReconcileReply(svc.invoke(run.sent.value), svc.loads).Returned? ==>
      run.result.None?
  {
    match Evidence(filePath, svc)
    case None => LocalRun(None, None, None)
    case Some(results) =>
      var conversation := Conversation(SystemPrompt(svc.readFile(TemplatePath)), UserTurn(ContextText(results)));
      // both `except` clauses turn an exception into None
      var parsed := match ReconcileReply(svc.invoke(conversation), svc.loads)
        case Returned(v) => v
        case Raised(_) => None;
      LocalRun(Some(conversation),
               if parsed.Some? then Some(Artifact(FlatOutputPath(submissionId), parsed.value)) else None,
               parsed)
  }

  /** With a single retrieved chunk the user turn carries exactly that
      chunk's content. */
  lemma SingleChunkContext<S, J>(submissionId: string, filePath: string, svc: LocalServices<S, J>)
    requires Evidence(filePath, svc).Some? && |Evidence(filePath, svc).value| == 1
    ensures var run := GenerateContentFromLocalPdf(submissionId, filePath, svc);
      run.sent.Some? &&
      run.sent.value.user == UserTurn(Evidence(filePath, svc).value[0].0.pageContent)
  {
    var results := Evidence(filePath, svc).value;
    assert results == [results[0]];
    ContextOfSingle(results[0]);
  }
}
