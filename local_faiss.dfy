/**
 * The two stages of the question-answering graph. Each reads the state
 * dictionary and returns a partial update that holds only the key it writes.
 * The vector store's similarity search and the chat model's reply are
 * parameters: what they compute is outside this model.
 */
module LocalFaiss {
  import opened Wrappers
  import opened StrJoin
  import Prompt

  /** A retrieved chunk: its text and its metadata (such as the source URL), values as strings. */
  datatype Document = Document(pageContent: string, metadata: map<string, string>)

  /** The keys of the State dictionary. */
  datatype Key = QuestionKey | ContextKey | AnswerKey

  /**
   * The State dictionary, or a partial update of it: a key that is absent
   * holds None.
   */
  datatype State = State(question: Option<string>, context: Option<seq<Document>>, answer: Option<string>)
  {
    /** The keys present in the dictionary. */
    function Keys(): set<Key> {
      (if question.Some? then {QuestionKey} else {})
      + (if context.Some? then {ContextKey} else {})
      + (if answer.Some? then {AnswerKey} else {})
    }
  }

  /** Reading a key the dictionary lacks raises KeyError. */
  datatype StageError = KeyError(key: Key)

  /** What `generate` puts between two chunks: one blank line. */
  const ChunkSeparator: string := "\n\n"

  /** The chunks' texts, in retrieval order. */
  function PageContents(docs: seq<Document>): (r: seq<string>)
    ensures |r| == |docs|
    ensures forall i | 0 <= i < |docs| :: r[i] == docs[i].pageContent
  {
    if docs == [] then [] else [docs[0].pageContent] + PageContents(docs[1..])
  }

  /** The context text `generate` hands to the prompt. */
  function JoinedContext(docs: seq<Document>): string {
    Join(ChunkSeparator, PageContents(docs))
  }

  /** The prompt `generate` sends to the chat model. */
  function GeneratePrompt(question: string, docs: seq<Document>): string {
    Prompt.GetSimpleQnaPrompt(question, JoinedContext(docs))
  }

  /**
   * retrieve: search the store with the question and write the hits, in the
   * store's order, under `context` and nowhere else.
   */
  function Retrieve(state: State, similaritySearch: string -> seq<Document>): (r: Result<State, StageError>)
    ensures r.Ok? <==> state.question.Some?
    ensures r.Err? ==> r.error == KeyError(QuestionKey)
    ensures r.Ok? ==> r.value.Keys() == {ContextKey}
    ensures r.Ok? ==> r.value.context.value == similaritySearch(state.question.value)
  {
    match state.question
    case None => Err(KeyError(QuestionKey))
    case Some(question) => Ok(State(None, Some(similaritySearch(question)), None))
  }

  /**
   * generate: read the context and then the question, render the prompt from
   * them and write the model's reply under `answer` and nowhere else. There
   * is no early return: an empty context still reaches the model.
   */
  function Generate(state: State, invoke: string -> string): (r: Result<State, StageError>)
    ensures r.Ok? <==> state.context.Some? && state.question.Some?
    ensures state.context.None? ==> r == Err(KeyError(ContextKey))
    ensures state.context.Some? && state.question.None? ==> r == Err(KeyError(QuestionKey))
    ensures r.Ok? ==> r.value.Keys() == {AnswerKey}
    ensures r.Ok? ==> r.value.answer.value == invoke(GeneratePrompt(state.question.value, state.context.value))
  {
    match state.context
    case None => Err(KeyError(ContextKey))
    case Some(docs) =>
      var docsContent := JoinedContext(docs);
      match state.question
      case None => Err(KeyError(QuestionKey))
      case Some(question) => Ok(State(None, None, Some(invoke(Prompt.GetSimpleQnaPrompt(question, docsContent)))))
  }

  /** retrieve reads only the question: states that agree on it get the same update. */
  lemma RetrieveReadsOnlyQuestion(s1: State, s2: State, similaritySearch: string -> seq<Document>)
    requires s1.question == s2.question
    ensures Retrieve(s1, similaritySearch) == Retrieve(s2, similaritySearch)
  {
  }

  /** generate reads only the question and the context, never a previous answer. */
  lemma GenerateIgnoresAnswer(s1: State, s2: State, invoke: string -> string)
    requires s1.question == s2.question && s1.context == s2.context
    ensures Generate(s1, invoke) == Generate(s2, invoke)
  {
  }

  /** With no chunks the context text is empty, and the model is still asked. */
  lemma GenerateEmptyContext(question: string, invoke: string -> string)
    ensures JoinedContext([]) == []
    ensures Generate(State(Some(question), Some([]), None), invoke)
         == Ok(State(None, None, Some(invoke(Prompt.GetSimpleQnaPrompt(question, [])))))
  {
  }

  /** With one chunk the context text is exactly that chunk's text. */
  lemma JoinedContextSingle(doc: Document)
    ensures JoinedContext([doc]) == doc.pageContent
  {
  }

  /** The context text is the chunks' texts, one blank line between neighbours. */
  lemma JoinedContextLength(docs: seq<Document>)
    requires docs != []
    ensures |JoinedContext(docs)| == TotalLength(PageContents(docs)) + 2 * (|docs| - 1)
  {
    JoinLength(ChunkSeparator, PageContents(docs));
  }

  /** Chunk `i`'s text appears verbatim in the context text, at its place in retrieval order. */
  lemma ChunkInContext(docs: seq<Document>, i: nat)
    requires i < |docs|
    ensures ChunkStart(docs, i) + |docs[i].pageContent| <= |JoinedContext(docs)|
    ensures JoinedContext(docs)[ChunkStart(docs, i)..ChunkStart(docs, i) + |docs[i].pageContent|]
         == docs[i].pageContent
  {
    JoinPartAt(ChunkSeparator, PageContents(docs), i);
  }

  /** Where chunk `i` starts in the context text: the texts before it and one blank line after each. */
  function ChunkStart(docs: seq<Document>, i: nat): nat
    requires i < |docs|
  {
    Offset(ChunkSeparator, PageContents(docs), i)
  }

  /**
   * Chunk `i` appears verbatim in the prompt sent to the model, after the
   * question and at its place in retrieval order.
   */
  lemma ChunkInPrompt(question: string, docs: seq<Document>, i: nat)
    requires i < |docs|
    ensures Prompt.ContextStart(question) + ChunkStart(docs, i) + |docs[i].pageContent|
         <= |GeneratePrompt(question, docs)|
    ensures var start := Prompt.ContextStart(question) + ChunkStart(docs, i);
      GeneratePrompt(question, docs)[start..start + |docs[i].pageContent|] == docs[i].pageContent
  {
    ChunkInContext(docs, i);
    var start := ChunkStart(docs, i);
    Prompt.ContextSliceInPrompt(question, JoinedContext(docs), start, start + |docs[i].pageContent|);
  }
}
