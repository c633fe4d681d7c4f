# Quiz controller model

A Dafny model of the quiz controller of a small Express/Sequelize quiz site
(`controllers/quiz.js`), with proofs about it. Three parts of the controller
are modelled:

- **Answer checking** (`check`, and the same comparison inside
  `randomcheck`). A submitted answer matches the stored one when both,
  lower-cased and then trimmed, are equal. A missing `query.answer` counts as
  the empty string. This is module `Answers`.
- **Random play** (`randomplay`, `randomcheck`). The session keeps
  `randomPlay`, the ids of the quizzes answered correctly in the current
  round. `randomplay` creates the list when it is undefined and presents a
  random quiz that is not yet in it. When no such quiz is left, it ends the
  round: the list is reset and the score is reported. `randomcheck` pushes
  the id on a correct answer and resets the list on a wrong one. The session
  is the class `RandomPlay.Session`, whose methods change its fields in place.
- **Record handlers** (`load`, `create`, `update`, `destroy`, `check`). The
  answers of the record store are inputs:
  - `findByPk` resolves with a quiz, resolves with nothing, or rejects;
  - `save` resolves with the saved quiz, rejects with a
    `Sequelize.ValidationError` carrying the field messages, or rejects with
    another error;
  - `destroy` resolves or rejects;
  - `findAll` (in `randomplay`) resolves with the rows or rejects.

  Pure functions say which response and which flash notices each store
  result leads to. The class `Records.Request` holds what the handlers change
  in place: `req.quiz` and the flash queue. Its methods are proved against
  those functions.

Supporting modules:

- `Wrappers` holds `Option`, a JavaScript value that may be `undefined`.
- `Paths` writes a quiz's page `/quizzes/<id>` in decimal and reads the id
  back from it.

The random draw `Math.random()` is a number `a` with `0 <= a < 1`. The model
takes it as an exact fraction `numerator / denominator`.
`Math.round(a * (length - 1))` is computed exactly over the rationals:
`RandomPlay.Round` is `floor(x + 1/2)`, which rounds halves up as
`Math.round` does.

A failed delete both queues the error notice and hands the error to `next`
(controllers/quiz.js:121-124).

Two behaviours of `randomcheck` are modelled as the code has them:

- It does not look at the list before pushing, so a quiz checked again by URL
  is counted twice. `RandomPlay.Session.RandomCheck` states that the list
  then holds a duplicate, and that it stays duplicate-free otherwise.
- It reads `session.randomPlay.length` without creating the list. When no
  `randomplay` has run in the session, that read throws and Express hands the
  `TypeError` to its error handler. The model returns `RandomFailed` and
  changes nothing.

## Model

| member | source | states |
|---|---|---|
| Answers.ToLower | controllers/quiz.js:148 | `toLowerCase` keeps the length and maps every character by itself: A-Z to a-z, all others unchanged |
| Answers.TrimStart | controllers/quiz.js:148 | the result is a suffix of the input; everything dropped is white space; the result does not start with white space |
| Answers.TrimEnd | controllers/quiz.js:148 | the result is a prefix of the input; everything dropped is white space; the result does not end with white space |
| Answers.Trim | controllers/quiz.js:148 | `trim` never lengthens a string, and its result neither starts nor ends with white space |
| Answers.TrimStartPadded | controllers/quiz.js:148 | removing leading white space from `w + x`, where `x` does not start with white space, gives exactly `x` |
| Answers.TrimEndPadded | controllers/quiz.js:148 | removing trailing white space from `x + w`, where `x` does not end with white space, gives exactly `x` |
| Answers.TrimUnique | controllers/quiz.js:148 | for white space `w1`, `w2` and a bare `t`, trimming `w1 + t + w2` gives exactly `t`; this pins `trim` down |
| Answers.TrimSplits | controllers/quiz.js:148 | every string is white space, then its trimmed form, then white space |
| Answers.TrimIgnoresPadding | controllers/quiz.js:148 | adding white space around a string does not change its trimmed form |
| Answers.TrimEmptyIff | controllers/quiz.js:148 | trimming gives `""` exactly when the string is all white space |
| Answers.TrimBare | controllers/quiz.js:148 | a string with no white space at either end is left unchanged |
| Answers.TrimIdempotent | controllers/quiz.js:148 | trimming twice is the same as trimming once |
| Answers.ToLowerAppend | controllers/quiz.js:148 | lower-casing a concatenation lower-cases each part |
| Answers.ToLowerIdempotent | controllers/quiz.js:148 | lower-casing twice is the same as lower-casing once |
| Answers.ToLowerKeepsSpace | controllers/quiz.js:148 | lower-casing neither creates nor removes white space: at every position, a character is white space after lower-casing exactly when it was before, so all-white-space and bare strings stay so |
| Answers.LowerTrimCommute | controllers/quiz.js:148 | lower-casing then trimming, as the code does, gives the same string as trimming then lower-casing |
| Answers.NormalizeIdempotent | controllers/quiz.js:148 | normalising an answer twice is the same as normalising it once |
| Answers.AnswerOf | controllers/quiz.js:147 | the answer of the query: a missing answer is `""`, a submitted one is taken as it is |
| Answers.Normalize | controllers/quiz.js:148 | the normal form `answer.toLowerCase().trim()` is never longer than the answer and has no white space at either end |
| Answers.Matches | controllers/quiz.js:148 | the comparison of the two normal forms; the stored answer submitted verbatim always matches |
| Answers.MatchesIffCoresEqual | controllers/quiz.js:147-148 | a submitted answer matches exactly when `lower(trim(submitted)) == lower(trim(stored))`, in either order of the two steps |
| Answers.MatchesIgnoresPaddingAndCase | controllers/quiz.js:148 | any case variant of the stored answer, padded with any white space, matches |
| Answers.MissingAnswerMatchesBlank | controllers/quiz.js:147-148 | a missing answer counts as `""`, so it matches exactly the stored answers that are all white space |
| Answers.MatchesIsEquivalence | controllers/quiz.js:148 | matching is reflexive, symmetric and transitive |
| Answers.PaddedParisMatches | controllers/quiz.js:148 | `" Paris "` matches a stored `"Paris"` |
| Answers.LowerParisMatches | controllers/quiz.js:148 | `"paris"` matches a stored `"Paris"` |
| Answers.InnerSpaceCounts | controllers/quiz.js:148 | white space inside an answer counts: `"Pari s"` does not match `"Paris"` |
| Paths.NatToString | controllers/quiz.js:65 | a JavaScript number written in decimal is digits only, with no leading zero |
| Paths.ParseNatToString | controllers/quiz.js:65 | reading that decimal form back gives the number |
| Paths.QuizPath | controllers/quiz.js:65 | `'/quizzes/' + id` is the prefix `/quizzes/` followed by exactly the id's decimal digits |
| Paths.QuizIdOf | controllers/quiz.js:99 | a path names a quiz only when it starts with `/quizzes/` and has more after it, so `/quizzes` names none |
| Paths.QuizPathRoundTrip | controllers/quiz.js:65 | the path `'/quizzes/' + id` names the quiz `id` again, so distinct quizzes get distinct pages |
| Records.Field | controllers/quiz.js:54 | a submitted body field is read as it is, a missing one as `""` |
| Records.FormOf | controllers/quiz.js:54-59 | the question and the answer are the body's `question` and `answer` fields, each `""` when missing |
| Records.FormIgnoresOtherFields | controllers/quiz.js:54-62 | only `question` and `answer` are taken from the body: changing any other field changes nothing that is built or saved |
| Records.LoadOutcome | controllers/quiz.js:5-16 | `load` continues exactly when the quiz is found; an absent quiz gives `'There is no quiz with id=' + quizId`; a store failure is passed on unchanged |
| Records.FieldFlashes | controllers/quiz.js:69 | one error notice per field message, with the same length, in the same order |
| Records.SaveFlashes | controllers/quiz.js:62-75 | a success queues one success notice; a validation failure queues the form-errors header and then one notice per field message, so 1 + n notices in order; another failure queues one error notice, the operation's prefix followed by the error's message |
| Records.SaveResponse | controllers/quiz.js:62-75 | a redirect exactly when the save succeeded, to the path that names the saved quiz's id; a validation failure re-renders the operation's form view with the quiz: its id, if any, and what was submitted; another failure goes to `next(error)` |
| Records.Edited | controllers/quiz.js:93-94 | `update` keeps the quiz's id and takes the question and answer from the body |
| Records.DestroyFlash | controllers/quiz.js:116-124 | a success notice exactly when the delete succeeded; on failure, `'Error deleting the Quiz: '` followed by the error's message |
| Records.DestroyResponse | controllers/quiz.js:116-124 | a redirect exactly when the delete succeeded, to the list `/quizzes` rather than a quiz page; a failure goes to `next(error)` |
| Records.Check | controllers/quiz.js:143-155 | `check` renders the quiz, the submitted answer (`""` when missing), and a result that is true exactly when the trimmed, lower-cased answers are equal |
| Records.Request.constructor | controllers/quiz.js:5-10 | a request starts with no quiz attached and no notices queued |
| Records.Request.PushFlash | controllers/quiz.js:64 | `req.flash` appends one notice at the end of the queue |
| Records.Request.PushFieldFlashes | controllers/quiz.js:69 | the `forEach` loop appends exactly `FieldFlashes(messages)` to the queue |
| Records.Request.Load | controllers/quiz.js:5-17 | `load` responds as `LoadOutcome` says, attaches the quiz when it is found, and otherwise leaves `req.quiz` unchanged |
| Records.Request.AfterSave | controllers/quiz.js:62-75 | after a save, the queue gains exactly `SaveFlashes` and the response is `SaveResponse` |
| Records.Request.Create | controllers/quiz.js:52-76 | `create` builds a quiz without an id from the body's question and answer, queues `SaveFlashes(Creating, ·)` and responds with `SaveResponse(Creating, ·)`, so a validation failure re-renders `quizzes/new` with no id |
| Records.Request.Update | controllers/quiz.js:89-110 | `update` replaces `req.quiz` by the edited quiz (same id, body's question and answer) and queues `SaveFlashes(Editing, ·)`; a successful save redirects to the page of the quiz just edited, and a validation failure re-renders `quizzes/edit` with that quiz's id and the submitted fields |
| Records.Request.Destroy | controllers/quiz.js:114-125 | `destroy` queues exactly `DestroyFlash` and responds with `DestroyResponse` |
| RandomPlay.Candidates | controllers/quiz.js:165-171 | the candidates are exactly the quizzes of the table whose id is not in the list |
| RandomPlay.CandidatesAppend | controllers/quiz.js:165-171 | listing keeps row order: the candidates of two tables in a row are those of the first followed by those of the second |
| RandomPlay.CandidatesSubMultiset | controllers/quiz.js:165-171 | each row is listed at most as often as it occurs in the table |
| RandomPlay.NoCandidatesIffAllSeen | controllers/quiz.js:165-171 | there is no candidate exactly when every quiz's id is already in the list |
| RandomPlay.Round | controllers/quiz.js:177 | `Math.round(n / d)` is the integer `r` with `r - 1/2 <= n / d < r + 1/2` |
| RandomPlay.ScaledDrawBound | controllers/quiz.js:174-176 | `a * b` with `0 <= a < 1` lies between `0` and `b` |
| RandomPlay.RoundAtLeast | controllers/quiz.js:177 | rounding a value of at least `b` gives at least `b` |
| RandomPlay.RoundAtMost | controllers/quiz.js:177 | rounding a value of at most `b` gives at most `b` |
| RandomPlay.PickIndex | controllers/quiz.js:174-181 | with at least one candidate, `Math.round(a * (length - 1))` is a valid index, so a quiz is always presented; with none it is `0` or `-1`, so nothing is |
| RandomPlay.PickIndexFirst | controllers/quiz.js:174-177 | a draw of `0`, or a single candidate, picks the first candidate |
| RandomPlay.AppendKeepsDistinct | controllers/quiz.js:209 | pushing an id that is not in the list keeps the list free of duplicates |
| RandomPlay.AppendSeenBreaksDistinct | controllers/quiz.js:209 | pushing an id that is already in the list makes it hold a duplicate |
| RandomPlay.Session.constructor | controllers/quiz.js:162 | a new session has no `randomPlay` list |
| RandomPlay.Session.Seen | controllers/quiz.js:162-164 | the list the handlers read: the list itself, or the empty list when it is undefined |
| RandomPlay.Session.InitRandomPlay | controllers/quiz.js:162-164 | the list is created empty only when it is undefined; an existing list is left unchanged |
| RandomPlay.Session.RandomPlay | controllers/quiz.js:158-196 | `randomplay` creates the list when undefined; a failed `findAll` goes to `next(error)` with the list kept as created; otherwise it presents the candidate at `Math.round(a * (length - 1))`, which is in the table and not yet answered, with the list length as score, and leaves the list alone; with no candidate left it renders `random_none` with the length before the reset and resets the list; it renders `random_none` exactly when every quiz has been answered |
| RandomPlay.Session.RandomCheck | controllers/quiz.js:199-222 | `randomcheck` renders the quiz, the submitted answer and whether it matches; a correct answer pushes the id, keeps the earlier entries and reports the old length + 1; a wrong one resets the list and reports the old length; with no list it fails and changes nothing; pushing keeps the list duplicate-free only when the id was not already in it |
| RandomPlay.Session.Record | controllers/quiz.js:206-213 | the list update once the answer is judged: push and length + 1 when correct, reset and old length when wrong |
| RandomPlay.CandidatesOfTwo | controllers/quiz.js:165-171 | with nothing answered yet, both quizzes of a two-quiz table are candidates, in table order |
| RandomPlay.OpenRound | controllers/quiz.js:158-186 | in a fresh session, `randomplay` creates the list and, with a draw of `0`, presents the first quiz with score 0 |
| RandomPlay.CheckBeforePlay | controllers/quiz.js:206 | in a session where `randomplay` never ran, `randomcheck` fails when it reads the length of the missing list |
| RandomPlay.ListingFailureKeepsList | controllers/quiz.js:162-194 | after a `randomplay` whose `findAll` failed, the list exists, so a following `randomcheck` is judged |
| RandomPlay.FinishRound | controllers/quiz.js:180-191 | once both quizzes of the table have been answered, `randomplay` presents nothing, reports 2 and resets the list |

## Left out

- The Sequelize calls (`findByPk`, `findAll` with `Op.notIn`, `build`, `save`, `destroy`) and their promise chains: their results are inputs. The quiz table that `findAll` filters is a sequence, and the result is assumed to come back in table order.
- When `save` fails validation does not depend on the data in this model: the validation rules live in the quiz model, which is not part of this model.
- Floating point: `Math.random()` is an exact fraction `numerator / denominator`, and the product and `Math.round` are exact rational arithmetic, without binary rounding.
- `toLowerCase` beyond ASCII: only A-Z are mapped. The white space that `trim` removes is the full ECMAScript set.
- A `query.answer` given as an array or other non-string value: the answer is a string or missing.
- A body field that was not submitted reads as `""`. The code assigns `undefined`, which the form view renders as empty.
- Records.Request.Update, Records.Request.Destroy: they require a loaded `req.quiz`, because the routes with `:quizId` always run `load` first.
- Records.Request.Update: it requires a successful save to carry the edited quiz's id, because `save` resolves with the instance it saved.
- Paths.NatToString: ids are assumed to be safe integers, below 2^53. JavaScript writes numbers from 10^21 up in exponent form, and ids above 2^53 lose precision.
- Rendering, redirects, how flash notices are stored, and `console.log` (controllers/quiz.js:182) are I/O. A response is a value naming the view, or the location, and its data.
- The render-only handlers `index`, `show`, `new`, `edit` and `play` (controllers/quiz.js:21-139) have no logic beyond `query.answer || ''`, which `Answers.AnswerOf` models.
- The commented-out earlier versions at controllers/quiz.js:224-271 are dead code.
- Session persistence and concurrent requests on one session. `score` in `randomcheck` is an implicit global (controllers/quiz.js:206) that requests running at the same time would share; here it is a local result.
