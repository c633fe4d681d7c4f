/**
 * The record-access handlers of the quiz controller: `load`, `create`,
 * `update`, `destroy` and `check`.
 *
 * The record store's answers (what `findByPk`, `save` and `destroy` resolve
 * or reject with) are inputs; each handler chooses from them the flash
 * notices it queues and the response it gives. The pure functions say which
 * response and notices each store result leads to; the `Request` class holds
 * the request-scoped state the handlers change in place (`req.quiz` and the
 * flash queue).
 */
module Records {
  import opened Wrappers
  import opened Answers
  import opened Paths

  /** A quiz record: store-assigned id, question and answer. */
  datatype Quiz = Quiz(id: nat, question: string, answer: string)

  /** A JavaScript `Error`, of which the controller only reads the message. */
  datatype Error = Error(message: string)

  datatype FlashKind = SuccessFlash | ErrorFlash

  /** One notice queued with `req.flash(kind, text)`. */
  datatype Flash = Flash(kind: FlashKind, text: string)

  /** The submitted `question` and `answer` fields of a form. */
  datatype Form = Form(question: string, answer: string)

  /** A request body: field name to submitted value. */
  type Body = map<string, string>

  /** What `findByPk` resolved or rejected with. */
  datatype Lookup = Found(quiz: Quiz) | Absent | LookupFailed(error: Error)

  /**
   * What `save` resolved or rejected with: the saved quiz's id, a
   * `Sequelize.ValidationError` with its per-field messages, or any other error.
   */
  datatype SaveResult = Saved(id: nat) | Invalid(messages: seq<string>) | SaveFailed(error: Error)

  /** What `destroy` resolved or rejected with. */
  datatype DestroyResult = Destroyed | DestroyFailed(error: Error)

  /** Which of the two saving handlers runs. */
  datatype Operation = Creating | Editing

  datatype Response =
    | Next                                              // next()
    | NextError(error: Error)                           // next(error)
    | Redirect(location: string)                        // res.redirect(location)
    | RenderForm(view: string, id: Option<nat>, form: Form)  // a form view re-rendered with the quiz: its id, if saved before, and the submitted fields
    | RenderResult(quiz: Quiz, result: bool, answer: string)  // 'quizzes/result'

  const NotFoundPrefix := "There is no quiz with id="
  const FormErrorsHeader := "There are errors in the form:"
  const DeletedText := "Quiz deleted successfully."
  const DeleteFailurePrefix := "Error deleting the Quiz: "

  /** `s` is `prefix` followed by `rest`. */
  predicate Splits(s: string, prefix: string, rest: string) {
    |prefix| <= |s| && s[..|prefix|] == prefix && s[|prefix|..] == rest
  }

  function SuccessText(op: Operation): string {
    match op
    case Creating => "Quiz created successfully."
    case Editing => "Quiz edited successfully."
  }

  function FailurePrefix(op: Operation): string {
    match op
    case Creating => "Error creating a new Quiz: "
    case Editing => "Error editing the Quiz: "
  }

  function FormView(op: Operation): string {
    match op
    case Creating => "quizzes/new"
    case Editing => "quizzes/edit"
  }

  /** `body.name`; a field that was not submitted reads as the empty string. */
  function Field(body: Body, name: string): (r: string)
    ensures name in body ==> r == body[name]
    ensures name !in body ==> r == ""
  {
    if name in body then body[name] else ""
  }

  /**
   * The only two fields the handlers take from a body: a submitted field is
   * taken as it is, a missing one is empty.
   */
  function FormOf(body: Body): (f: Form)
    ensures "question" in body ==> f.question == body["question"]
    ensures "answer" in body ==> f.answer == body["answer"]
    ensures "question" !in body ==> f.question == ""
    ensures "answer" !in body ==> f.answer == ""
  {
    Form(Field(body, "question"), Field(body, "answer"))
  }

  /**
   * Other submitted fields are ignored: changing any field but `question`
   * and `answer` does not change what is built or saved.
   */
  lemma FormIgnoresOtherFields(body: Body, name: string, value: string)
    requires name != "question" && name != "answer"
    ensures FormOf(body[name := value]) == FormOf(body)
  {
  }

  // ----- load -----

  /**
   * `load`: continue when the quiz exists, fail with a not-found error naming
   * the requested id when it does not, and pass a store failure on.
   */
  function LoadOutcome(quizId: string, lookup: Lookup): (r: Response)
    ensures r == Next <==> lookup.Found?
    ensures lookup.Absent? ==> r.NextError? && Splits(r.error.message, NotFoundPrefix, quizId)
    ensures lookup.LookupFailed? ==> r == NextError(lookup.error)
  {
    match lookup
    case Found(_) => Next
    case Absent => NextError(Error(NotFoundPrefix + quizId))
    case LookupFailed(e) => NextError(e)
  }

  // ----- create and update -----

  /** One error notice per field message, in order. */
  function FieldFlashes(messages: seq<string>): (r: seq<Flash>)
    ensures |r| == |messages|
    ensures forall i :: 0 <= i < |messages| ==> r[i] == Flash(ErrorFlash, messages[i])
  {
    if messages == [] then []
    else FieldFlashes(messages[..|messages| - 1]) + [Flash(ErrorFlash, messages[|messages| - 1])]
  }

  /**
   * The notices a save queues: one success notice; or the form-errors header
   * followed by one notice per field message, in order; or one error notice
   * carrying the failure's message.
   */
  function SaveFlashes(op: Operation, result: SaveResult): (r: seq<Flash>)
    ensures result.Saved? ==> r == [Flash(SuccessFlash, SuccessText(op))]
    ensures result.Invalid? ==>
      |r| == 1 + |result.messages| && r[0] == Flash(ErrorFlash, FormErrorsHeader)
      && forall i :: 0 <= i < |result.messages| ==> r[i + 1] == Flash(ErrorFlash, result.messages[i])
    ensures result.SaveFailed? ==>
      |r| == 1 && r[0].kind == ErrorFlash && Splits(r[0].text, FailurePrefix(op), result.error.message)
  {
    match result
    case Saved(_) => [Flash(SuccessFlash, SuccessText(op))]
    case Invalid(messages) => [Flash(ErrorFlash, FormErrorsHeader)] + FieldFlashes(messages)
    case SaveFailed(e) => [Flash(ErrorFlash, FailurePrefix(op) + e.message)]
  }

  /**
   * The response after a save of the quiz with id `id` (none for one not
   * yet stored): a redirect to the saved quiz's page exactly when the save
   * succeeded; the form re-rendered with that quiz on a validation failure;
   * the error handed to `next` otherwise.
   */
  function SaveResponse(op: Operation, id: Option<nat>, form: Form, result: SaveResult): (r: Response)
    ensures r.Redirect? <==> result.Saved?
    ensures result.Saved? ==> QuizIdOf(r.location) == Some(result.id)
    ensures result.Invalid? ==> r == RenderForm(FormView(op), id, form)
    ensures result.SaveFailed? ==> r == NextError(result.error)
  {
    match result
    case Saved(saved) =>
      assert QuizIdOf(QuizPath(saved)) == Some(saved) by { QuizPathRoundTrip(saved); }
      Redirect(QuizPath(saved))
    case Invalid(_) => RenderForm(FormView(op), id, form)
    case SaveFailed(e) => NextError(e)
  }

  /** `update` overwrites the question and the answer and keeps the id. */
  function Edited(quiz: Quiz, body: Body): (r: Quiz)
    ensures r.id == quiz.id && Form(r.question, r.answer) == FormOf(body)
  {
    quiz.(question := Field(body, "question"), answer := Field(body, "answer"))
  }

  // ----- destroy -----

  function DestroyFlash(result: DestroyResult): (f: Flash)
    ensures f.kind == SuccessFlash <==> result.Destroyed?
    ensures result.DestroyFailed? ==> Splits(f.text, DeleteFailurePrefix, result.error.message)
  {
    match result
    case Destroyed => Flash(SuccessFlash, DeletedText)
    case DestroyFailed(e) => Flash(ErrorFlash, DeleteFailurePrefix + e.message)
  }

  /** After `destroy`: back to the list on success, the error to `next` on failure. */
  function DestroyResponse(result: DestroyResult): (r: Response)
    ensures r.Redirect? <==> result.Destroyed?
    ensures r.Redirect? ==> r.location == QuizzesPath && QuizIdOf(r.location) == None
    ensures result.DestroyFailed? ==> r == NextError(result.error)
  {
    match result
    case Destroyed => Redirect(QuizzesPath)
    case DestroyFailed(e) => NextError(e)
  }

  // ----- check -----

  /**
   * `check`: shows the quiz, whether the submitted answer matches the stored
   * one, and the submitted answer (empty when there was none).
   */
  function Check(quiz: Quiz, query: Option<string>): (r: Response)
    ensures r.RenderResult? && r.quiz == quiz && r.answer == AnswerOf(query)
    ensures r.result <==> ToLower(Trim(AnswerOf(query))) == ToLower(Trim(quiz.answer))
  {
    MatchesIffCoresEqual(AnswerOf(query), quiz.answer);
    RenderResult(quiz, Matches(query, quiz.answer), AnswerOf(query))
  }

  /**
   * Request-scoped state the handlers change: `req.quiz`, which `load`
   * attaches, and the flash notices queued during the request.
   */
  class Request {
    var quiz: Option<Quiz>
    var flashes: seq<Flash>

    constructor ()
      ensures quiz == None && flashes == []
    {
      quiz := None;
      flashes := [];
    }

    /** `req.flash(kind, text)`. */
    method PushFlash(f: Flash)
      modifies this`flashes
      ensures flashes == old(flashes) + [f]
    {
      flashes := flashes + [f];
    }

    /** `error.errors.forEach(({message}) => req.flash('error', message))`. */
    method PushFieldFlashes(messages: seq<string>)
      modifies this`flashes
      ensures flashes == old(flashes) + FieldFlashes(messages)
    {
      var i := 0;
      while i < |messages|
        invariant 0 <= i <= |messages|
        invariant flashes == old(flashes) + FieldFlashes(messages[..i])
      {
        assert messages[..i + 1][..i] == messages[..i];
        PushFlash(Flash(ErrorFlash, messages[i]));
        i := i + 1;
      }
      assert messages[..i] == messages;
    }

    /** `load`: attaches the quiz found under `quizId`, if any. */
    method Load(quizId: string, lookup: Lookup) returns (r: Response)
      modifies this`quiz
      ensures r == LoadOutcome(quizId, lookup)
      ensures quiz == if lookup.Found? then Some(lookup.quiz) else old(quiz)
    {
      match lookup {
        case Found(q) =>
          quiz := Some(q);
          r := Next;
        case Absent =>
          r := NextError(Error(NotFoundPrefix + quizId));
        case LookupFailed(e) =>
          r := NextError(e);
      }
    }

    /** The three-way branch after `save`, shared by `create` and `update`. */
    method AfterSave(op: Operation, id: Option<nat>, form: Form, result: SaveResult) returns (r: Response)
      modifies this`flashes
      ensures flashes == old(flashes) + SaveFlashes(op, result)
      ensures r == SaveResponse(op, id, form, result)
    {
      match result {
        case Saved(id) =>
          PushFlash(Flash(SuccessFlash, SuccessText(op)));
          r := Redirect(QuizPath(id));
        case Invalid(messages) =>
          ghost var before := flashes;
          var header := Flash(ErrorFlash, FormErrorsHeader);
          PushFlash(header);
          PushFieldFlashes(messages);
          assert flashes == before + ([header] + FieldFlashes(messages));
          r := RenderForm(FormView(op), id, form);
        case SaveFailed(e) =>
          PushFlash(Flash(ErrorFlash, FailurePrefix(op) + e.message));
          r := NextError(e);
      }
    }

    /**
     * `create`: builds a quiz, not yet stored and so without an id, from the
     * body's question and answer only, and saves it.
     */
    method Create(body: Body, result: SaveResult) returns (r: Response)
      modifies this`flashes
      ensures flashes == old(flashes) + SaveFlashes(Creating, result)
      ensures r == SaveResponse(Creating, None, FormOf(body), result)
    {
      var built := Form(Field(body, "question"), Field(body, "answer"));
      r := AfterSave(Creating, None, built, result);
    }

    /**
     * `update`: overwrites the loaded quiz's question and answer with the
     * body's, keeps its id, and saves it. `save` resolves with that same
     * quiz, so a saved result carries its id and the redirect goes to the
     * page of the quiz just edited.
     */
    method Update(body: Body, result: SaveResult) returns (r: Response)
      requires quiz.Some?
      requires result.Saved? ==> result.id == quiz.value.id
      modifies this`quiz, this`flashes
      ensures quiz == Some(Edited(old(quiz.value), body))
      ensures flashes == old(flashes) + SaveFlashes(Editing, result)
      ensures r == SaveResponse(Editing, Some(old(quiz.value).id), FormOf(body), result)
      ensures result.Saved? ==> r == Redirect(QuizPath(old(quiz.value).id))
      ensures result.Invalid? ==> r == RenderForm(FormView(Editing), Some(old(quiz.value).id), FormOf(body))
    {
      var q := quiz.value;
      q := q.(question := Field(body, "question"));
      q := q.(answer := Field(body, "answer"));
      quiz := Some(q);
      r := AfterSave(Editing, Some(q.id), Form(q.question, q.answer), result);
    }

    /** `destroy`: deletes the loaded quiz. */
    method Destroy(result: DestroyResult) returns (r: Response)
      requires quiz.Some?
      modifies this`flashes
      ensures flashes == old(flashes) + [DestroyFlash(result)]
      ensures r == DestroyResponse(result)
    {
      match result {
        case Destroyed =>
          PushFlash(Flash(SuccessFlash, DeletedText));
          r := Redirect(QuizzesPath);
        case DestroyFailed(e) =>
          PushFlash(Flash(ErrorFlash, DeleteFailurePrefix + e.message));
          r := NextError(e);
      }
    }
  }
}
