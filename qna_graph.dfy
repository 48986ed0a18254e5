/**
 * The question-answering graph: START -> retrieve -> generate, run once on a
 * state that holds only the question. Folding a node's update into the
 * state is done by the graph library; ApplyUpdate states the behaviour this
 * model assumes of it.
 */
module QnaGraph {
  import opened Wrappers
  import opened LocalFaiss
  import Prompt

  /**
   * Fold a node's partial update into the state: every key the update holds
   * replaces the old value, every other key is carried over.
   */
  function ApplyUpdate(state: State, update: State): (r: State)
    ensures r.Keys() == state.Keys() + update.Keys()
    ensures update.question.None? ==> r.question == state.question
    ensures update.context.None? ==> r.context == state.context
    ensures update.answer.None? ==> r.answer == state.answer
    ensures update.question.Some? ==> r.question == update.question
    ensures update.context.Some? ==> r.context == update.context
    ensures update.answer.Some? ==> r.answer == update.answer
  {
    State(if update.question.Some? then update.question else state.question,
          if update.context.Some? then update.context else state.context,
          if update.answer.Some? then update.answer else state.answer)
  }

  /** Run one node: fold its update into the state, or stop with the error it raised. */
  function RunNode(state: State, update: Result<State, StageError>): (r: Result<State, StageError>)
    ensures r.Ok? <==> update.Ok?
    ensures update.Err? ==> r.error == update.error
    ensures r.Ok? ==> r.value == ApplyUpdate(state, update.value)
  {
    match update
    case Ok(u) => Ok(ApplyUpdate(state, u))
    case Err(e) => Err(e)
  }

  /** The state the graph is invoked with: `{"question": question}`. */
  function Initial(question: string): State {
    State(Some(question), None, None)
  }

  /**
   * Invoke the graph: retrieve, then generate. It never fails, keeps the
   * question, records the search hits as the context, and answers with the
   * model's reply to the prompt built from exactly those hits.
   */
  function RunQnaGraph(question: string, similaritySearch: string -> seq<Document>,
                       invoke: string -> string): (r: Result<State, StageError>)
    ensures r.Ok?
    ensures r.value.Keys() == {QuestionKey, ContextKey, AnswerKey}
    ensures r.value.question == Some(question)
    ensures r.value.context == Some(similaritySearch(question))
    ensures r.value.answer == Some(invoke(GeneratePrompt(question, similaritySearch(question))))
  {
    var start := Initial(question);
    match RunNode(start, Retrieve(start, similaritySearch))
    case Err(e) => Err(e)
    case Ok(retrieved) => RunNode(retrieved, Generate(retrieved, invoke))
  }

  /**
   * generate runs on a state in which retrieve has already set the context
   * and kept the question, and which holds no answer yet.
   */
  lemma RetrieveBeforeGenerate(question: string, similaritySearch: string -> seq<Document>)
    ensures RunNode(Initial(question), Retrieve(Initial(question), similaritySearch))
         == Ok(State(Some(question), Some(similaritySearch(question)), None))
  {
  }

  /** When the search finds nothing, the model is still asked, with an empty context. */
  lemma EmptyRetrievalStillAnswers(question: string, similaritySearch: string -> seq<Document>,
                                   invoke: string -> string)
    requires similaritySearch(question) == []
    ensures RunQnaGraph(question, similaritySearch, invoke).value.answer
         == Some(invoke(Prompt.GetSimpleQnaPrompt(question, [])))
  {
    GenerateEmptyContext(question, invoke);
  }
}
