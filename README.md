# FAISS retrieval QnA: query-time prompt and stages

This project models the query-time core of a small retrieval-augmented
question-answering program. The program has two parts. A graph runs a
`retrieve` node and then a `generate` node over a `State` dictionary with the
keys `question`, `context` and `answer`. `retrieve` asks a vector store for the
chunks most similar to the question. `generate` joins the chunks' texts with a
blank line. It fills a fixed prompt template with the question and that text,
and stores the chat model's reply as the answer.

Modules, one per concern:

- `Wrappers` (`wrappers.dfy`): `Option` for a dictionary key that may be
  absent, and `Result` for a value or the exception raised instead.
- `StrFormat` (`str_format.dfy`): Python's `str.format` with keyword
  arguments and plain-name fields. It works in a single left-to-right pass.
  It serves as the reference semantics of the prompt template.
- `Prompt` (`prompt.dfy`): `SIMPLE_QNA_PROMPT_TEMPLATE` and
  `get_simple_qna_prompt`.
- `Slices` (`slices.dfy`): where a slice of a concatenation lands, used to
  locate one piece of text inside a longer one.
- `StrJoin` (`str_join.dfy`): Python's `sep.join(parts)`.
- `LocalFaiss` (`local_faiss.dfy`): the `State` record, `retrieve` and
  `generate`.
- `QnaGraph` (`qna_graph.dfy`): the two-node graph, START → retrieve →
  generate.

The vector store's `similarity_search` and the chat model's
`invoke(...).content` are function parameters (`string -> seq<Document>` and
`string -> string`). The model states what the program does with their
results, not what they compute.

The template is written as the source's lines. The instruction line is split
into its four sentences, which are joined with single spaces, and each
sentence is split into short pieces. The resulting text is the same,
character for character. The split keeps the verifier's reasoning about the
literal text cheap.

## Model

| member | source | states |
|---|---|---|
| StrFormat.LookUp | src/chat/prompt.py:10 | a field is replaced only if it is a plain keyword name among the arguments; a missing name gives KeyError |
| StrFormat.FormatLiteralThen | src/chat/prompt.py:10 | template text without braces is copied unchanged in front of whatever the rest formats to |
| StrFormat.FormatPlain | src/chat/prompt.py:10 | a brace-free template formats to itself, whatever the arguments |
| StrFormat.FormatField | src/chat/prompt.py:10 | `{name}` is replaced by the argument's text, and formatting continues after the field; the inserted text is never scanned again |
| StrFormat.FormatMissingKey | src/chat/prompt.py:10 | a field whose name was not passed makes format raise KeyError |
| StrFormat.FormatTwoFields | src/chat/prompt.py:1-10 | a template with two keyword fields and brace-free text around them formats to that text with both argument values in place |
| Prompt.TemplateLayout | src/chat/prompt.py:1-6 | the template is a head (leading newline, instructions, `Question: `), `{question}`, ` \nContext: `, `{context}`, and ` \nAnswer:\n` |
| Prompt.LiteralsNoBraces | src/chat/prompt.py:1-6 | the template has no brace outside its two fields |
| Prompt.GetSimpleQnaPrompt | src/chat/prompt.py:8-10 | for any inputs, including empty ones, the prompt starts with the fixed head (the instructions and `Question: `) and ends with the fixed tail ` \nAnswer:\n`; its length is the fixed text plus the question and the context |
| Prompt.QuestionInPrompt | src/chat/prompt.py:3 | the question appears verbatim right after `Question: `, and ends before the context starts |
| Prompt.RenderIsFormat | src/chat/prompt.py:1-10 | `template.format(question=q, context=c)` never fails and equals the prompt: each field is replaced once and all other template text is unchanged |
| Prompt.FieldTextInQuestionIsLiteral | src/chat/prompt.py:10 | a question that reads `{context}` is inserted literally and not expanded again |
| Prompt.PromptLength | src/chat/prompt.py:1-10 | prompt length = template length − len(`{question}`) − len(`{context}`) + question length + context length |
| Prompt.ContextSliceInPrompt | src/chat/prompt.py:4-5 | every stretch of the context appears unchanged at its place, after the head, the question and `Context: ` |
| Prompt.PromptDeterminesFields | src/chat/prompt.py:3-4 | if the question's length is known, the prompt gives back the question and the context |
| Prompt.MarkerInQuestionIsAmbiguous | src/chat/prompt.py:3-4 | without that length it does not: a question that contains ` \nContext: ` yields the same prompt as a different question and context |
| StrJoin.JoinLength | src/retriever/local_faiss.py:16 | joining no parts gives the empty string; joining n ≥ 1 parts gives their total length plus n−1 separators |
| StrJoin.JoinPartAt | src/retriever/local_faiss.py:16 | part i appears verbatim at its offset: the lengths of the parts before it plus i separators |
| StrJoin.JoinSeparatorAt | src/retriever/local_faiss.py:16 | exactly one separator stands between part i and part i+1 |
| StrJoin.JoinAppend | src/retriever/local_faiss.py:16 | appending a part to a non-empty list appends one separator and that part |
| LocalFaiss.PageContents | src/retriever/local_faiss.py:16 | the chunks' texts, one for each chunk, in order |
| LocalFaiss.Retrieve | src/retriever/local_faiss.py:11-13 | retrieve fails with KeyError exactly when the question is missing; otherwise it returns an update whose only key is `context`, holding the search result for the question in the store's order |
| LocalFaiss.RetrieveReadsOnlyQuestion | src/retriever/local_faiss.py:11-13 | retrieve depends on the state only through `question` |
| LocalFaiss.Generate | src/retriever/local_faiss.py:15-19 | generate reads `context` and then `question` and raises KeyError for the first one missing; otherwise it returns an update whose only key is `answer`, equal to the model's reply to the prompt built from the question and the joined chunks |
| LocalFaiss.GenerateIgnoresAnswer | src/retriever/local_faiss.py:15-19 | generate depends on the state only through `question` and `context` |
| LocalFaiss.GenerateEmptyContext | src/retriever/local_faiss.py:15-19 | with an empty chunk list the joined context is empty and the model is still asked; there is no early return |
| LocalFaiss.JoinedContextSingle | src/retriever/local_faiss.py:16 | for one chunk the joined context is exactly that chunk's text |
| LocalFaiss.JoinedContextLength | src/retriever/local_faiss.py:16 | for n ≥ 1 chunks the joined context is as long as their texts plus 2·(n−1) |
| LocalFaiss.ChunkInContext | src/retriever/local_faiss.py:16 | chunk i's text appears verbatim in the joined context, after the texts of chunks 0..i−1 and one blank line after each |
| LocalFaiss.ChunkInPrompt | src/retriever/local_faiss.py:16-17 | chunk i's text appears verbatim in the prompt sent to the model, at its retrieval-order position after the question |
| QnaGraph.ApplyUpdate | src/qna.py:9-15 | folding a node's update into the state: written keys are replaced, other keys are kept, and no key is lost |
| QnaGraph.RunQnaGraph | src/qna.py:9-39 | the graph that `build_qna_graph` compiles, invoked with only a question as at line 39, never fails; it keeps the question, sets the context to the search result and answers with the model's reply to the prompt built from that context |
| QnaGraph.RetrieveBeforeGenerate | src/qna.py:13-14 | generate receives a state in which retrieve has set the context and kept the question, and which holds no answer yet |
| QnaGraph.EmptyRetrievalStillAnswers | src/qna.py:13-14 | when the search finds nothing, the answer is the model's reply to the prompt with an empty context |

## Left out

- Indexing (`src/indexer/pipeline.py`) is not modelled. It covers web loading, the text splitter and building the FAISS index. These are network I/O and library code whose algorithms are not part of this repository.
- Embedding and chat-model setup (`src/indexer/embeddings_models.py`, `src/chat/openai_llm_model.py`) is not modelled. It is credential lookup, interactive prompts and foreign API calls.
- The console output of `src/qna.py` is not modelled: `_pretty_print_context` and the `print` calls of the `__main__` block. The block's construction of the chat model and the vector store is left out with the setup above. Its `invoke({"question": question})` call (src/qna.py:39) is QnaGraph.RunQnaGraph, with the question as a parameter instead of the fixed `"What is Task Decomposition?"`.
- `similarity_search` and `invoke` are total function parameters. The model does not capture their failures (network, credentials), their cost, top-k counts or vector distances. The chat model's reply is modelled as a fixed function of the prompt, whereas the real model samples its replies, so lemmas such as LocalFaiss.GenerateIgnoresAnswer compare two runs under one reply function, not two sampled replies.
- QnaGraph.ApplyUpdate: the graph library merges updates into the state. The model assumes that a written key overwrites the old value and other keys are kept. It does not verify this against the library.
- StrFormat.LookUp: conversions (`!r`), format specs (`:>10`), attribute and index access (`.x`, `[0]`) are all reported as `UnsupportedField`, although Python would format them. The template uses none of them.
- StrFormat.LookUp: only the ASCII digits `0`-`9` make a field a positional index. Python also accepts other Unicode decimal digits, so for a field such as `{٣}` it looks up a positional argument and raises IndexError, while the model treats the field as a keyword name and reports `MissingKey` (KeyError). The template uses no such field.
- StrFormat.Format: a field that opens a nested brace is reported as `BraceInFieldName`. Python formats a field nested inside a format spec, as in `"{a:{b}}".format(a="1", b="5")`, where the model fails. Where the nested brace stands in the field name itself, Python fails too. The template has no nested field.
- Value types inside `State` are fixed by the datatype. Python's TypedDict does not check them at run time.
- Document metadata is carried along but not interpreted. Its values are flattened to strings, so an integer entry such as the splitter's start index is not represented by its own type.
- Dafny's `char` is a Unicode scalar value, so strings with lone surrogates, which Python allows, are not covered.
