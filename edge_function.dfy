/**
 * The serverless copy of the question generator
 * (supabase/functions/generate-questions/index.ts): the CORS preflight, a
 * 2000-character cut that always appends `...`, the `answer`-field closing
 * text, and the best-effort insert of a `practice_sessions` row.
 */
module EdgeFunction {
  import opened Wrappers
  import opened Js
  import opened Protocol
  import opened Sessions

  const Budget: nat := 2000

  /** `t.substring(0, 2000)` followed by `...`, whatever the length of `t`. */
  function Truncate(t: string): (r: string)
    ensures |r| == Min(|t|, Budget) + 3
    ensures r[..Min(|t|, Budget)] == t[..Min(|t|, Budget)]
    ensures r[|r| - 3..] == "..."
  {
    SubstringTo(t, Budget) + "..."
  }

  /** Unlike the server's rule, the cut is never the identity: a short text still gains the marker. */
  lemma TruncateAlwaysMarks(t: string)
    requires |t| <= Budget
    ensures Truncate(t) == t + "..."
    ensures Truncate(t) != t
  {
    assert SubstringTo(t, Budget) == t;
  }

  /** Cutting twice adds a second marker to a short text. */
  lemma TruncateTwice(t: string)
    requires |t| + 3 <= Budget
    ensures Truncate(Truncate(t)) == t + "......"
  {
    TruncateAlwaysMarks(t);
    TruncateAlwaysMarks(t + "...");
  }

  /** The closing instructions of this backend's prompt (a single `answer` field). */
  const Tail: string :=
    "- Each question should be highly relevant to the candidate's background and the job requirements\n- Provide comprehensive answer guidelines for each question\n- Questions should be specific and actionable\n- Format as JSON array with fields: id (number), text (string), type (string), difficulty (string: \"Easy\", \"Medium\", \"Hard\"), answer (string)\n\nExample JSON format:\n[\n  {\n    \"id\": 1,\n    \"text\": \"Describe a challenging project you worked on and how you overcame obstacles.\",\n    \"type\": \"Behavioral\",\n    \"difficulty\": \"Medium\",\n    \"answer\": \"Use the STAR method: Situation (describe the project context), Task (your responsibilities), Action (specific steps you took), Result (outcomes and learnings). Focus on problem-solving skills and collaboration.\"\n  }\n]\n\nReturn only valid JSON array."

  /** The prompt opens with the header and closes with the requirements and this endpoint's closing text. */
  function EdgePrompt(p: Params): (r: string)
    ensures Bracketed(r, Header(p.questionCount), Requirements(p) + Tail)
  {
    PromptFrame(p, Truncate, Tail);
    Prompt(p, Truncate, Tail)
  }

  const ActiveStatus: string := "active"

  /**
   * The row saved for a signed-in caller: the requested count (not the
   * number of questions returned), `null` for a falsy text, status `active`.
   */
  function SessionRow(p: Params, userId: string, questions: seq<Json>): (row: NewSession)
    ensures row.userId == userId && row.questions == questions
    ensures row.questionCount == p.questionCount
    ensures row.questionTypes == Some(p.questionTypes) && row.difficulty == p.difficulty
    ensures row.resumeText.Some? <==> Truthy(p.resumeText)
    ensures row.resumeText.Some? ==> row.resumeText == p.resumeText
    ensures row.jobDescriptionText.Some? <==> Truthy(p.jobDescription)
    ensures row.jobDescriptionText.Some? ==> row.jobDescriptionText == p.jobDescription
    ensures row.status == Some(ActiveStatus)
    ensures row.title.None? && row.score.None? && row.duration.None?
  {
    NewSession(userId, None, OrNull(p.resumeText), OrNull(p.jobDescription), p.questionCount,
               Some(p.questionTypes), p.difficulty, questions, None, None, Some(ActiveStatus))
  }

  /** An incoming request: the CORS preflight, or a POST whose body is `None` when `req.json()` throws. */
  datatype Request = Preflight | Post(body: Option<Body>)

  /** What one request produces: the response, the prompt sent to the model, and the row to insert. */
  datatype Outcome = Outcome(resp: Response, sent: Option<string>, row: Option<NewSession>)

  /** The handler's result as a function of the request and of the model's and the parser's answers. */
  function Respond(req: Request, complete: string -> Option<string>, parse: string -> Option<Json>,
                   now: string): (o: Outcome)
    ensures o.resp.status in {200, 400, 500}
    ensures o.row.Some? ==> o.resp.status == 200 && o.sent.Some?
    ensures o.resp.status == 200 && !req.Preflight? ==> o.sent.Some? && o.resp.body.QuestionsBody?
  {
    match req
    case Preflight => Outcome(Response(200, TextBody("ok")), None, None)
    case Post(None) => Outcome(ServerError(GenerateFailedMessage), None, None)
    case Post(Some(b)) =>
      var p := WithDefaults(b);
      if !HasSource(p) then Outcome(BadRequest(MissingSourceMessage), None, None)
      else
        var prompt := EdgePrompt(p);
        match complete(prompt)
        case None => Outcome(ServerError(GenerateFailedMessage), Some(prompt), None)
        case Some(reply) =>
          match ReplyQuestions(parse, reply)
          case Failure(_) => Outcome(ServerError(GenerateFailedMessage), Some(prompt), None)
          case Success(qs) =>
            var row := if Truthy(p.userId) then Some(SessionRow(p, p.userId.value, qs)) else None;
            Outcome(Response(200, QuestionsBody(true, qs, now)), Some(prompt), row)
  }

  /** The preflight answers `ok` without reading a body, calling the model or writing a row. */
  lemma PreflightAnswersOk(complete: string -> Option<string>, parse: string -> Option<Json>, now: string)
    ensures var o := Respond(Preflight, complete, parse, now);
      o.resp == Response(200, TextBody("ok")) && o.sent.None? && o.row.None?
  {
  }

  /** Without a resume or a job description the answer is the server's 400, and nothing else happens. */
  lemma MissingSourceRejected(b: Body, complete: string -> Option<string>, parse: string -> Option<Json>, now: string)
    requires !HasSource(WithDefaults(b))
    ensures var o := Respond(Post(Some(b)), complete, parse, now);
      o.resp == BadRequest(MissingSourceMessage) && o.sent.None? && o.row.None?
  {
  }

  /**
   * A row is written exactly for a successful request with a truthy user id,
   * and it holds the questions of the response.
   */
  lemma RowOnlyOnSuccessWithUser(req: Request, complete: string -> Option<string>, parse: string -> Option<Json>,
                                 now: string)
    ensures var o := Respond(req, complete, parse, now);
      o.row.Some? <==> (o.resp.status == 200 && req.Post? && req.body.Some? && Truthy(req.body.value.userId))
    ensures var o := Respond(req, complete, parse, now);
      o.row.Some? ==> (
        && o.resp.body.QuestionsBody?
        && o.row.value.questions == o.resp.body.questions
        && o.row.value.questionCount == WithDefaults(req.body.value).questionCount)
  {
  }

  /** Once the model replies, the response is the one the server gives for the same reply. */
  lemma SameResponseAsServer(b: Body, complete: string -> Option<string>, parse: string -> Option<Json>,
                             now: string, reply: string)
    requires HasSource(WithDefaults(b))
    requires complete(EdgePrompt(WithDefaults(b))) == Some(reply)
    ensures Respond(Post(Some(b)), complete, parse, now).resp == ReplyResponse(parse, reply, now)
  {
  }

  /** A failed model call or an unreadable reply is a 500 with the fixed message, and no row. */
  lemma FailuresAre500(req: Request, complete: string -> Option<string>, parse: string -> Option<Json>, now: string)
    ensures var o := Respond(req, complete, parse, now);
      o.resp.status != 200 && o.resp.status != 400 ==> (o.resp == ServerError(GenerateFailedMessage) && o.row.None?)
  {
  }

  /**
   * The handler.  `insertOk` says whether the insert succeeded; a failed
   * insert is only logged, so the response does not depend on it.
   */
  method Handle(req: Request, complete: string -> Option<string>, parse: string -> Option<Json>,
                now: string, store: Store, insertOk: bool)
    returns (resp: Response, sent: Option<string>)
    requires store.Valid()
    modifies store
    ensures store.Valid()
    ensures resp == Respond(req, complete, parse, now).resp
    ensures sent == Respond(req, complete, parse, now).sent
    ensures var row := Respond(req, complete, parse, now).row;
      store.rows == old(store.rows)
        + (if row.Some? && insertOk then [StoredSession(|old(store.rows)|, now, row.value)] else [])
  {
    if req.Preflight? {
      return Response(200, TextBody("ok")), None;
    }
    if req.body.None? {
      return ServerError(GenerateFailedMessage), None;
    }
    var p := WithDefaults(req.body.value);
    if !HasSource(p) {
      return BadRequest(MissingSourceMessage), None;
    }
    var prompt := AssemblePrompt(p, Truncate, Tail);
    sent := Some(prompt);
    var completion := complete(prompt);
    if completion.None? {
      return ServerError(GenerateFailedMessage), sent;
    }
    var questionsArray := ReadReply(parse, completion.value);
    if questionsArray.Failure? {
      return ServerError(GenerateFailedMessage), sent;
    }
    if Truthy(p.userId) && insertOk {
      var _ := store.Insert(SessionRow(p, p.userId.value, questionsArray.value), now);
    }
    resp := Response(200, QuestionsBody(true, questionsArray.value, now));
  }
}
