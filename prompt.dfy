/**
 * The question-answering prompt: a fixed template with the two fields
 * `{question}` and `{context}`, filled in one `str.format` pass.
 */
module Prompt {
  import opened Wrappers
  import opened StrFormat
  import opened Slices

  /** The four sentences of the template's instruction line. */
  const Task: string := "You are an assistant for " + "question-answering tasks."
  const UseContext: string := "Use the following pieces of " + "retrieved context to answer " + "the question."
  const AdmitIgnorance: string := "If you don't know the answer, " + "just say that you don't know."
  const BeConcise: string := "Use three sentences maximum " + "and keep the answer concise."

  /** The instruction line of the template. */
  const Instructions: string := Task + " " + UseContext + " " + AdmitIgnorance + " " + BeConcise

  /** SIMPLE_QNA_PROMPT_TEMPLATE, line by line: it opens with an empty line. */
  const SimpleQnaPromptTemplate: string :=
    "\n" +
    Instructions + "\n" +
    "Question: {question} \n" +
    "Context: {context} \n" +
    "Answer:\n"

  const QuestionField: string := "{question}"
  const ContextField: string := "{context}"

  /** The template text before `{question}`. */
  const Head: string := "\n" + Instructions + "\n" + "Question: "
  /** The template text between `{question}` and `{context}`. */
  const Between: string := " \n" + "Context: "
  /** The template text after `{context}`. */
  const Tail: string := " \n" + "Answer:\n"

  /** The keyword arguments `get_simple_qna_prompt` passes to `format`. */
  function QnaArgs(question: string, context: string): map<string, string> {
    map["question" := question, "context" := context]
  }

  /**
   * get_simple_qna_prompt: the template with the question and the context in
   * place of their fields, and every other character of the template kept.
   */
  function GetSimpleQnaPrompt(question: string, context: string): (r: string)
    ensures |r| == |Head| + |question| + |Between| + |context| + |Tail|
    ensures r[..|Head|] == Head
    ensures r[|r| - |Tail|..] == Tail
  {
    Head + (question + (Between + (context + Tail)))
  }

  /** The template is the head, the question field, the text between, the context field and the tail. */
  lemma TemplateLayout()
    ensures SimpleQnaPromptTemplate == Head + (QuestionField + (Between + (ContextField + Tail)))
  {
    QuestionLine();
    ContextLine();
    Regroup("\n", Instructions, "\n", "Question: ", QuestionField, " \n", "Context: ", ContextField, " \n", "Answer:\n");
  }

  lemma QuestionLine()
    ensures "Question: {question} \n" == "Question: " + QuestionField + " \n"
  {
  }

  lemma ContextLine()
    ensures "Context: {context} \n" == "Context: " + ContextField + " \n"
  {
  }

  /** Regrouping the template's pieces around its two fields. */
  lemma Regroup(a: string, b: string, c: string, q1: string, q: string, q2: string,
                c1: string, f: string, c2: string, e: string)
    ensures a + b + c + (q1 + q + q2) + (c1 + f + c2) + e
         == (a + b + c + q1) + (q + ((q2 + c1) + (f + (c2 + e))))
  {
  }

  /** Every character of `s` sorts before '{', so `s` holds neither brace. */
  predicate BeforeBraces(s: string) {
    forall i | 0 <= i < |s| :: s[i] < '{'
  }

  lemma BeforeBracesNoBraces(s: string)
    requires BeforeBraces(s)
    ensures NoBraces(s)
  {
  }

  lemma TaskPlain() ensures BeforeBraces(Task) { }
  lemma UseContextPlain() ensures BeforeBraces(UseContext) { }
  lemma AdmitIgnorancePlain() ensures BeforeBraces(AdmitIgnorance) { }
  lemma BeConcisePlain() ensures BeforeBraces(BeConcise) { }

  /** The template holds no brace outside its two fields. */
  lemma LiteralsNoBraces()
    ensures NoBraces(Head) && NoBraces(Between) && NoBraces(Tail)
  {
    TaskPlain();
    UseContextPlain();
    AdmitIgnorancePlain();
    BeConcisePlain();
    BeforeBracesNoBraces(Task);
    BeforeBracesNoBraces(UseContext);
    BeforeBracesNoBraces(AdmitIgnorance);
    BeforeBracesNoBraces(BeConcise);
    NoBracesAppend(Task, " ");
    NoBracesAppend(Task + " ", UseContext);
    NoBracesAppend(Task + " " + UseContext, " ");
    NoBracesAppend(Task + " " + UseContext + " ", AdmitIgnorance);
    NoBracesAppend(Task + " " + UseContext + " " + AdmitIgnorance, " ");
    NoBracesAppend(Task + " " + UseContext + " " + AdmitIgnorance + " ", BeConcise);
    NoBracesAppend("\n", Instructions);
    NoBracesAppend("\n" + Instructions, "\n");
    NoBracesAppend("\n" + Instructions + "\n", "Question: ");
  }

  /**
   * Rendering the prompt is exactly `str.format` on the template: it never
   * fails, and the question and the context are inserted as they are, even
   * when they contain braces or the text of a field.
   */
  lemma RenderIsFormat(question: string, context: string)
    ensures Format(SimpleQnaPromptTemplate, QnaArgs(question, context)) == Ok(GetSimpleQnaPrompt(question, context))
  {
    var kwargs := QnaArgs(question, context);
    TemplateLayout();
    LiteralsNoBraces();
    FieldNames();
    FormatTwoFields(Head, "question", Between, "context", Tail, kwargs);
  }

  /**
   * A question that reads `{context}` is put in literally: the inserted text
   * is not scanned for fields again, so the context still goes only in its own place.
   */
  lemma FieldTextInQuestionIsLiteral(context: string)
    ensures Format(SimpleQnaPromptTemplate, QnaArgs(ContextField, context))
         == Ok(Head + (ContextField + (Between + (context + Tail))))
  {
    RenderIsFormat(ContextField, context);
  }

  /** The two field names are plain keyword names. */
  lemma FieldNames()
    ensures QuestionField == "{" + "question" + "}" && NoBraces("question") && IsKeyword("question")
    ensures ContextField == "{" + "context" + "}" && NoBraces("context") && IsKeyword("context")
  {
    QuestionName();
    ContextName();
  }

  lemma QuestionName()
    ensures QuestionField == "{" + "question" + "}" && NoBraces("question") && IsKeyword("question")
  {
    assert "question"[0] == 'q';
  }

  lemma ContextName()
    ensures ContextField == "{" + "context" + "}" && NoBraces("context") && IsKeyword("context")
  {
    assert "context"[0] == 'c';
  }

  /** The prompt is the template, less the two field markers, plus the question and the context. */
  lemma PromptLength(question: string, context: string)
    ensures |GetSimpleQnaPrompt(question, context)|
         == |SimpleQnaPromptTemplate| - |QuestionField| - |ContextField| + |question| + |context|
  {
    TemplateLayout();
  }

  /** Where the context starts in the prompt: after the head, the question and the text between. */
  function ContextStart(question: string): nat {
    |Head| + |question| + |Between|
  }

  /** Every stretch of the context is found, unchanged, at its place after the question. */
  lemma ContextSliceInPrompt(question: string, context: string, from: nat, to: nat)
    requires from <= to <= |context|
    ensures ContextStart(question) + to <= |GetSimpleQnaPrompt(question, context)|
    ensures GetSimpleQnaPrompt(question, context)[ContextStart(question) + from..ContextStart(question) + to]
         == context[from..to]
  {
    FourthPieceSlice(Head, question, Between, context, Tail, from, to);
  }

  /** The question appears verbatim right after the head, and before the context. */
  lemma QuestionInPrompt(question: string, context: string)
    ensures |Head| + |question| < ContextStart(question) <= |GetSimpleQnaPrompt(question, context)|
    ensures GetSimpleQnaPrompt(question, context)[|Head|..|Head| + |question|] == question
  {
    SecondPiece(Head, question, Between, context, Tail);
  }

  /** Knowing the question's length, the prompt gives back the question and the context. */
  lemma PromptDeterminesFields(q1: string, c1: string, q2: string, c2: string)
    requires |q1| == |q2|
    requires GetSimpleQnaPrompt(q1, c1) == GetSimpleQnaPrompt(q2, c2)
    ensures q1 == q2 && c1 == c2
  {
    PiecesDetermined(Head, Between, Tail, q1, c1, q2, c2);
  }

  /** The second of five pieces sits right after the first. */
  lemma SecondPiece(h: string, q: string, b: string, c: string, t: string)
    ensures (h + (q + (b + (c + t))))[|h|..|h| + |q|] == q
  {
    var x := q + (b + (c + t));
    PrefixSlice(q, b + (c + t), 0, |q|);
    SuffixSlice(h, x, 0, |q|);
    assert q[0..|q|] == q;
  }

  /** A stretch of the fourth of five pieces sits after the first three. */
  lemma FourthPieceSlice(h: string, q: string, b: string, c: string, t: string, from: nat, to: nat)
    requires from <= to <= |c|
    ensures |h| + |q| + |b| + to <= |h + (q + (b + (c + t)))|
    ensures (h + (q + (b + (c + t))))[|h| + |q| + |b| + from..|h| + |q| + |b| + to] == c[from..to]
  {
    var z := c + t;
    var y := b + z;
    var x := q + y;
    var lo, hi := |q| + (|b| + from), |q| + (|b| + to);
    assert |h| + |q| + |b| + from == |h| + lo;
    assert |h| + |q| + |b| + to == |h| + hi;
    calc {
      (h + x)[|h| + lo..|h| + hi];
    ==  { SuffixSlice(h, x, lo, hi); }
      x[|q| + (|b| + from)..|q| + (|b| + to)];
    ==  { SuffixSlice(q, y, |b| + from, |b| + to); }
      y[|b| + from..|b| + to];
    ==  { SuffixSlice(b, z, from, to); }
      z[from..to];
    ==  { PrefixSlice(c, t, from, to); }
      c[from..to];
    }
  }

  /** With fixed first, third and fifth pieces, equal results and equal second lengths fix the rest. */
  lemma PiecesDetermined(h: string, b: string, t: string, q1: string, c1: string, q2: string, c2: string)
    requires |q1| == |q2|
    requires h + (q1 + (b + (c1 + t))) == h + (q2 + (b + (c2 + t)))
    ensures q1 == q2 && c1 == c2
  {
    SecondPiece(h, q1, b, c1, t);
    SecondPiece(h, q2, b, c2, t);
    FourthPieceSlice(h, q1, b, c1, t, 0, |c1|);
    FourthPieceSlice(h, q2, b, c2, t, 0, |c2|);
    assert c1[0..|c1|] == c1 && c2[0..|c2|] == c2;
  }

  /**
   * Without the question's length the prompt is ambiguous: a question that
   * contains the context marker gives the same prompt as a different split.
   */
  lemma MarkerInQuestionIsAmbiguous(a: string, b: string, c: string)
    ensures a + (Between + b) != a
    ensures GetSimpleQnaPrompt(a + (Between + b), c) == GetSimpleQnaPrompt(a, b + (Between + c))
  {
    assert |a + (Between + b)| > |a|;
    var bc := b + (Between + (c + Tail));
    assert (a + (Between + b)) + (Between + (c + Tail)) == a + (Between + bc);
    assert (b + (Between + c)) + Tail == bc;
  }
}
