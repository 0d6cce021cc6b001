/**
 * The question-answering orchestration of `QAEngine.answer_question`:
 * retrieve documents, build the grounded prompt, ask the model for a
 * structured answer, and turn "no tool call" and the `DONT_KNOW` sentinel
 * into an absent result.
 */
module QA {
  import opened Wrappers
  import Builtins

  // ---------------------------------------------------------------------
  // Constants of the prompt
  // ---------------------------------------------------------------------

  /** The reserved answer by which the model says the documents do not hold the answer. */
  const DontKnow: string := "DONT_KNOW"

  /** How many documents `answer_question` retrieves when the caller does not say. */
  const DefaultDocumentCount: int := 5

  /** Placed between consecutive retrieved documents in the prompt. */
  const DocumentSeparator: string := "\n----- DOCUMENT SEPARATOR -----\n"

  const DocumentListStart: string := "----- DOCUMENT LIST START -----"
  const DocumentListEnd: string := "----- DOCUMENT LIST END -----"
  const QuestionStart: string := "----- QUESTION START -----"
  const QuestionEnd: string := "----- QUESTION END -----"

  const Preamble: string := "\nYou are an expert on answering questions related to the following documents:\n\n"
  const QuestionIntro: string := "The user asked you the following question: \n\n"
  const Instructions: string :=
    "Please provide an answer to the user's question. If the answer cannot be found in the documents above\n" +
    "answer with as a special token DONT_KNOW to indicate that you do not know the answer.\n"

  /** The template text before `{documents}`: it ends with the document-list start marker line. */
  const Lead: string := Preamble + DocumentListStart + "\n"
  /** Between `{documents}` and `{question}`: the end marker, the question intro and the question start marker. */
  const Middle: string := "\n" + DocumentListEnd + "\n\n" + QuestionIntro + QuestionStart + "\n"
  /** After `{question}`: the question end marker and the instructions, which name the sentinel. */
  const Trail: string := "\n" + QuestionEnd + "\n\n" + Instructions

  /** `PROMPT_TEMPLATE` divided at its replacement fields. */
  const PromptTemplate: seq<Builtins.Piece> := [
    Builtins.Literal(Lead),
    Builtins.Field("documents"),
    Builtins.Literal(Middle),
    Builtins.Field("question"),
    Builtins.Literal(Trail)
  ]

  /** The template's fields are exactly `documents` and `question`. */
  lemma PromptTemplateFields()
    ensures Builtins.FieldNames(PromptTemplate) == {"documents", "question"}
  {
    var t := PromptTemplate;
    assert t[1].name == "documents" && t[3].name == "question";
    forall n | n in Builtins.FieldNames(t) ensures n == "documents" || n == "question" {
      var i :| 0 <= i < |t| && t[i].Field? && t[i].name == n;
      assert i == 1 || i == 3;
    }
  }

  // ---------------------------------------------------------------------
  // Prompt construction
  // ---------------------------------------------------------------------

  /** The retrieved documents as one string, the separator between neighbours. */
  function DocumentsString(documents: seq<string>): string
  {
    Builtins.Join(DocumentSeparator, documents)
  }

  /**
   * `PROMPT_TEMPLATE.format(documents=..., question=...)`: the documents
   * string between the document-list markers and the question between the
   * question markers, the rest of the template unchanged.
   */
  function BuildPrompt(documentsString: string, question: string): (prompt: string)
    ensures prompt ==
      Lead + documentsString + Middle + question + Trail
  {
    var args := map["documents" := documentsString, "question" := question];
    var r := Builtins.Format(PromptTemplate, args);
    PromptLayout(documentsString, question);
    r.value
  }

  /** How `Format` fills `PromptTemplate`. */
  lemma PromptLayout(documentsString: string, question: string)
    ensures Builtins.Format(PromptTemplate, map["documents" := documentsString, "question" := question]) ==
      Ok(Lead + documentsString + Middle + question + Trail)
  {
    var args := map["documents" := documentsString, "question" := question];
    Builtins.FormatTwoFields(Lead, "documents", Middle, "question", Trail, args);
  }

  // ---------------------------------------------------------------------
  // The engine
  // ---------------------------------------------------------------------

  /** One tool call of the model's reply, with its `answer` argument already decoded. */
  datatype ToolCall = ToolCall(answer: string)

  /** A grounded answer and the documents it was grounded on. */
  datatype Answer = Answer(text: string, documents: seq<string>)

  /**
   * `QAEngine`: its two collaborators, fixed at construction.
   * `query(question, n)` is the document store's retrieval, `complete(prompt)`
   * the tool calls of the model's reply to `prompt`.
   */
  datatype QAEngine = QAEngine(query: (string, int) -> seq<string>, complete: string -> seq<ToolCall>)
  {
    /** The prompt the model is asked when `documents` were retrieved for `question`. */
    function PromptFor(documents: seq<string>, question: string): string
    {
      BuildPrompt(DocumentsString(documents), question)
    }

    /**
     * `answer_question`: `None` when nothing is retrieved, when the model
     * makes no tool call or when it answers `DONT_KNOW`; otherwise the
     * model's answer with the retrieved documents.
     */
    function AnswerQuestion(question: string, nDocuments: int := DefaultDocumentCount): (r: Option<Answer>)
      ensures query(question, nDocuments) == [] ==> r == None
      ensures r.Some? ==> r.value.text != DontKnow
      ensures r.Some? ==> r.value.documents == query(question, nDocuments)
      ensures r.Some? ==>
        var calls := complete(PromptFor(query(question, nDocuments), question));
        |calls| > 0 && r.value.text == calls[0].answer
      ensures r.None? && query(question, nDocuments) != [] ==>
        var calls := complete(PromptFor(query(question, nDocuments), question));
        |calls| == 0 || calls[0].answer == DontKnow
    {
      var documents := query(question, nDocuments);
      if |documents| == 0 then None
      else
        var toolCalls := complete(PromptFor(documents, question));
        if |toolCalls| == 0 then None
        else if toolCalls[0].answer == DontKnow then None
        else Some(Answer(toolCalls[0].answer, documents))
    }
  }

  // ---------------------------------------------------------------------
  // Properties
  // ---------------------------------------------------------------------

  /** With nothing retrieved the model is never consulted: any model gives the same `None`. */
  lemma NoDocumentsNoModelCall(engine: QAEngine, other: string -> seq<ToolCall>, question: string, n: int)
    requires engine.query(question, n) == []
    ensures engine.AnswerQuestion(question, n) == None
    ensures engine.(complete := other).AnswerQuestion(question, n) == None
  {
  }

  /**
   * The store is asked exactly `(question, n)`: two retrievers that agree on
   * that one request give the same result.
   */
  lemma QueryOnlyWithQuestionAndCount(engine: QAEngine, other: (string, int) -> seq<string>, question: string, n: int)
    requires other(question, n) == engine.query(question, n)
    ensures engine.(query := other).AnswerQuestion(question, n) == engine.AnswerQuestion(question, n)
  {
  }

  /**
   * The model is asked exactly one prompt: two models that agree on it
   * give the same result.
   */
  lemma ModelSeesOnlyThePrompt(engine: QAEngine, other: string -> seq<ToolCall>, question: string, n: int)
    requires other(engine.PromptFor(engine.query(question, n), question)) ==
             engine.complete(engine.PromptFor(engine.query(question, n), question))
    ensures engine.(complete := other).AnswerQuestion(question, n) == engine.AnswerQuestion(question, n)
  {
  }

  /** The outcome is `Some` exactly when documents came back and the first tool call answered something other than the sentinel. */
  lemma AnswerIffGrounded(engine: QAEngine, question: string, n: int)
    ensures engine.AnswerQuestion(question, n).Some? <==>
      var documents := engine.query(question, n);
      var calls := engine.complete(engine.PromptFor(documents, question));
      documents != [] && |calls| > 0 && calls[0].answer != DontKnow
  {
  }

  /** A single retrieved document is passed to the model as it is, with no separator. */
  lemma SingleDocumentString(document: string)
    ensures DocumentsString([document]) == document
  {
  }

  /**
   * The documents string holds the retrieved documents in order: document
   * `i` starts at `Offset(i)`, and the separator follows it unless it is last;
   * the string is exactly as long as the documents and the separators between them.
   */
  lemma DocumentsInOrder(documents: seq<string>, i: nat)
    requires i < |documents|
    ensures |DocumentsString(documents)| + |DocumentSeparator| == Builtins.Offset(DocumentSeparator, documents, |documents|)
    ensures
      var s := DocumentsString(documents);
      var o := Builtins.Offset(DocumentSeparator, documents, i);
      o + |documents[i]| <= |s| && s[o .. o + |documents[i]|] == documents[i] &&
      (i + 1 < |documents| ==>
        o + |documents[i]| + |DocumentSeparator| <= |s| &&
        s[o + |documents[i]| .. o + |documents[i]| + |DocumentSeparator|] == DocumentSeparator)
  {
    Builtins.JoinLayout(DocumentSeparator, documents, i);
  }

  /**
   * The case of the program's question-answering test: one document comes
   * back and the model answers; the result is that answer with exactly that
   * document, and the prompt carries the document verbatim.
   */
  lemma SingleDocumentAnswer(engine: QAEngine, question: string, document: string, answer: string)
    requires engine.query(question, 1) == [document]
    requires engine.complete(BuildPrompt(document, question)) == [ToolCall(answer)]
    requires answer != DontKnow
    ensures engine.AnswerQuestion(question, 1) == Some(Answer(answer, [document]))
    // the test's own check on the length of the returned documents
    ensures |engine.AnswerQuestion(question, 1).value.documents| == 1
  {
    SingleDocumentString(document);
  }

  /**
   * The case of the program's no-answer test: a document comes back but the
   * model answers the sentinel, so the result is `None`.
   */
  lemma SentinelAnswerIsNone(engine: QAEngine, question: string, document: string)
    requires engine.query(question, 1) == [document]
    requires engine.complete(BuildPrompt(document, question)) == [ToolCall(DontKnow)]
    ensures engine.AnswerQuestion(question, 1) == None
  {
    SingleDocumentString(document);
  }
}
