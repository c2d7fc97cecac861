/**
 * The browser's API layer (frontend/src/lib/api.js): the request body built
 * by `generatePersonalizedQuestions`, the error mapping of a non-ok HTTP
 * reply, and the two session calls on the `practice_sessions` table.
 */
module Api {
  import opened Wrappers
  import opened Js
  import opened Protocol
  import opened Sessions

  /** The arguments object; a key the caller left out is `None`. */
  datatype Args = Args(
    resumeText: Option<string>,
    jobDescription: Option<string>,
    questionCount: int,
    questionTypes: Option<seq<string>>,
    difficulty: Option<string>,
    userId: Option<string>)

  /**
   * The body sent: the count through `parseInt`, the types as given, the
   * difficulty defaulted to `mixed`, and the three optional keys only when
   * their argument is truthy.
   */
  function RequestBody(args: Args): (b: Body)
    ensures b.questionCount == Some(args.questionCount)
    ensures b.questionTypes == args.questionTypes
    ensures b.difficulty == Some(args.difficulty.GetOr(DefaultDifficulty))
    ensures b.resumeText.Some? <==> Truthy(args.resumeText)
    ensures b.resumeText.Some? ==> b.resumeText == args.resumeText
    ensures b.jobDescription.Some? <==> Truthy(args.jobDescription)
    ensures b.jobDescription.Some? ==> b.jobDescription == args.jobDescription
    ensures b.userId.Some? <==> Truthy(args.userId)
    ensures b.userId.Some? ==> b.userId == args.userId
  {
    ParseIntToString(args.questionCount);
    Body(OrNull(args.resumeText), OrNull(args.jobDescription),
         ParseInt(IntToString(args.questionCount)), args.questionTypes,
         Some(args.difficulty.GetOr(DefaultDifficulty)), OrNull(args.userId))
  }

  /** `generatePersonalizedQuestions`: creates `params`, then adds each optional key under its condition. */
  method PersonalizedParams(args: Args) returns (params: Body)
    ensures params == RequestBody(args)
  {
    ParseIntToString(args.questionCount);
    var count := ParseInt(IntToString(args.questionCount));
    params := Body(None, None, count, args.questionTypes, Some(args.difficulty.GetOr(DefaultDifficulty)), None);
    if Truthy(args.resumeText) {
      params := params.(resumeText := args.resumeText);
    }
    if Truthy(args.jobDescription) {
      params := params.(jobDescription := args.jobDescription);
    }
    if Truthy(args.userId) {
      params := params.(userId := args.userId);
    }
  }

  /**
   * What the server makes of that body: the count and difficulty arrive
   * unchanged, the types fall back to the server's default only when left
   * out, and the 400 happens exactly when both texts are falsy.
   */
  lemma ServerReadsRequest(args: Args)
    ensures var p := WithDefaults(RequestBody(args));
      && p.questionCount == args.questionCount
      && p.difficulty == args.difficulty.GetOr(DefaultDifficulty)
      && p.questionTypes == args.questionTypes.GetOr(DefaultQuestionTypes)
      && (HasSource(p) <==> Truthy(args.resumeText) || Truthy(args.jobDescription))
  {
  }

  /** `errorData.error || 'HTTP error! status: ' + status`; `body` is None when the reply is not JSON. */
  function FailureMessage(status: nat, body: Option<ResponseBody>): (m: string)
    ensures body.Some? && body.value.ErrorBody? && body.value.error != "" ==> m == body.value.error
    ensures !(body.Some? && body.value.ErrorBody? && body.value.error != "") ==>
      m == "HTTP error! status: " + NatToString(status)
  {
    if body.Some? && body.value.ErrorBody? && body.value.error != "" then body.value.error
    else "HTTP error! status: " + NatToString(status)
  }

  /**
   * The error `response.json()` raises on a 2xx reply that is not JSON. Its
   * wording is the JavaScript engine's, so one constant stands for it.
   */
  const NotJsonMessage := "SyntaxError: response body is not valid JSON"

  /**
   * `fetch`, `response.ok`, then `response.json()`: a 2xx status with a
   * readable body yields that body; a 2xx status whose body is not JSON
   * throws the parse error; anything else throws with the failure message.
   */
  function Outcome(status: nat, body: Option<ResponseBody>): (r: Result<ResponseBody, string>)
    ensures r.Success? <==> 200 <= status < 300 && body.Some?
    ensures r.Success? ==> r.value == body.value
    ensures 200 <= status < 300 && body.None? ==> r == Failure(NotJsonMessage)
    ensures !(200 <= status < 300) ==> r == Failure(FailureMessage(status, body))
  {
    if !(200 <= status < 300) then Failure(FailureMessage(status, body))
    else if body.None? then Failure(NotJsonMessage)
    else Success(body.value)
  }

  /**
   * The server's error responses surface in the browser as the server's own
   * message, and its successes as their body.
   */
  lemma ServerErrorsSurface(resp: Response)
    ensures resp == BadRequest(MissingSourceMessage) ==>
      Outcome(resp.status, Some(resp.body)) == Failure(MissingSourceMessage)
    ensures resp == ServerError(GenerateFailedMessage) ==>
      Outcome(resp.status, Some(resp.body)) == Failure(GenerateFailedMessage)
    ensures resp.status == 200 ==> Outcome(resp.status, Some(resp.body)) == Success(resp.body)
  {
  }

  /** An error reply whose body cannot be read names its status code. */
  lemma UnreadableErrorNamesStatus(status: nat)
    requires !(200 <= status < 300)
    ensures Outcome(status, None).Failure?
    ensures var m := Outcome(status, None).error;
      |m| > 20 && m[..20] == "HTTP error! status: " && ParseNat(m[20..]) == status
  {
    ParseNatToString(status);
    var m := "HTTP error! status: " + NatToString(status);
    assert m[20..] == NatToString(status);
  }

  /**
   * `savePracticeSession`: an insert that reports an error throws its
   * message and, as the database refused it, adds nothing; otherwise the
   * first returned record, the stored row, comes back.
   */
  method SavePracticeSession(store: Store, sessionData: NewSession, now: string, error: Option<string>)
    returns (r: Result<StoredSession, string>)
    requires store.Valid()
    modifies store
    ensures store.Valid()
    ensures error.Some? ==> r == Failure(error.value) && store.rows == old(store.rows)
    ensures error.None? ==> && r == Success(StoredSession(|old(store.rows)|, now, sessionData))
                            && store.rows == old(store.rows) + [r.value]
  {
    if error.Some? {
      return Failure(error.value);
    }
    var data := store.Insert(sessionData, now);
    r := Success(data);
  }

  /** `getUserSessions`: the user's rows newest first, or the error message thrown. */
  method GetUserSessions(store: Store, userId: string, error: Option<string>)
    returns (r: Result<seq<StoredSession>, string>)
    ensures error.Some? ==> r == Failure(error.value)
    ensures error.None? ==> r == Success(store.UserSessions(userId))
  {
    if error.Some? {
      return Failure(error.value);
    }
    r := Success(store.UserSessions(userId));
  }
}
