/**
 * The question-generation contract shared by the two backends (the Express
 * server and the serverless function): the request body and its defaults, the
 * input check, the layout of the prompt, the two-stage reading of the model's
 * reply and the response shapes.  Each backend supplies its own truncation
 * rule and its own closing prompt text.
 */
module Protocol {
  import opened Wrappers
  import opened Js

  /** A JSON value (numbers restricted to integers). */
  datatype Json =
    | JNull
    | JBool(b: bool)
    | JNumber(n: int)
    | JString(s: string)
    | JArray(items: seq<Json>)
    | JObject(fields: seq<(string, Json)>)

  /** `obj[key]` on a parsed object: the last binding of `key` wins, as in JSON.parse; None when absent. */
  function Member(v: Json, key: string): (r: Option<Json>)
    ensures !v.JObject? ==> r.None?
    ensures r.Some? ==> exists i :: 0 <= i < |v.fields| && v.fields[i] == (key, r.value)
                                  && forall k :: i < k < |v.fields| ==> v.fields[k].0 != key
    ensures v.JObject? ==> (r.None? <==> forall i :: 0 <= i < |v.fields| ==> v.fields[i].0 != key)
  {
    if v.JObject? then LastBinding(v.fields, key) else None
  }

  /** The value of the last pair whose name is `key`. */
  function LastBinding(fields: seq<(string, Json)>, key: string): (r: Option<Json>)
    ensures r.Some? ==> exists i :: 0 <= i < |fields| && fields[i] == (key, r.value)
                                  && forall k :: i < k < |fields| ==> fields[k].0 != key
    ensures r.None? <==> forall i :: 0 <= i < |fields| ==> fields[i].0 != key
  {
    if |fields| == 0 then None
    else if fields[|fields| - 1].0 == key then Some(fields[|fields| - 1].1)
    else
      var r := LastBinding(fields[..|fields| - 1], key);
      assert forall i :: 0 <= i < |fields| - 1 ==> fields[..|fields| - 1][i] == fields[i];
      r
  }

  /** With a key given twice, the second binding is the one read. */
  lemma DuplicateKeyLastWins(key: string, first: Json, second: Json)
    ensures Member(JObject([(key, first), (key, second)]), key) == Some(second)
  {
  }

  /** JavaScript truthiness of an optional JSON value (`undefined` when absent). */
  predicate JsTruthy(v: Option<Json>) {
    match v
    case None => false
    case Some(JNull) => false
    case Some(JBool(b)) => b
    case Some(JNumber(n)) => n != 0
    case Some(JString(s)) => s != ""
    case Some(_) => true
  }

  /** The decoded request body; a field the client left out is `None`. */
  datatype Body = Body(
    resumeText: Option<string>,
    jobDescription: Option<string>,
    questionCount: Option<int>,
    questionTypes: Option<seq<string>>,
    difficulty: Option<string>,
    userId: Option<string>)

  /** The request fields after the destructuring defaults are applied. */
  datatype Params = Params(
    resumeText: Option<string>,
    jobDescription: Option<string>,
    questionCount: int,
    questionTypes: seq<string>,
    difficulty: string,
    userId: Option<string>)

  const DefaultQuestionCount: int := 5
  const DefaultQuestionTypes: seq<string> := ["technical", "behavioral", "domainSpecific"]
  const DefaultDifficulty: string := "mixed"

  const MissingSourceMessage: string := "Resume text or job description is required"
  const GenerateFailedMessage: string := "Failed to generate questions"

  /** A default replaces a field only when the field is missing; a present field is kept. */
  function WithDefaults(b: Body): (p: Params)
    ensures p.resumeText == b.resumeText && p.jobDescription == b.jobDescription
    ensures p.userId == b.userId
    ensures b.questionCount.None? ==> p.questionCount == DefaultQuestionCount
    ensures b.questionCount.Some? ==> p.questionCount == b.questionCount.value
    ensures b.questionTypes.None? ==> p.questionTypes == DefaultQuestionTypes
    ensures b.questionTypes.Some? ==> p.questionTypes == b.questionTypes.value
    ensures b.difficulty.None? ==> p.difficulty == DefaultDifficulty
    ensures b.difficulty.Some? ==> p.difficulty == b.difficulty.value
  {
    Params(
      b.resumeText,
      b.jobDescription,
      b.questionCount.GetOr(DefaultQuestionCount),
      b.questionTypes.GetOr(DefaultQuestionTypes),
      b.difficulty.GetOr(DefaultDifficulty),
      b.userId)
  }

  /** The request may go ahead only when a resume or a job description is truthy. */
  predicate HasSource(p: Params) {
    Truthy(p.resumeText) || Truthy(p.jobDescription)
  }

  // ---------------------------------------------------------------------------
  // Prompt layout

  function Header(n: int): string {
    "Generate " + IntToString(n) + " high-quality interview questions for a job candidate. "
  }

  const ResumeLabel: string := "Based on this resume: "
  const JobLabel: string := "For this job description: "

  /** The resume segment: present exactly when the resume text is truthy. */
  function ResumePart(p: Params, truncate: string -> string): (r: string)
    ensures Truthy(p.resumeText) ==> r == ResumeLabel + truncate(p.resumeText.value) + " "
    ensures !Truthy(p.resumeText) ==> r == ""
  {
    if Truthy(p.resumeText) then ResumeLabel + truncate(p.resumeText.value) + " " else ""
  }

  /** The job segment: present exactly when the job description is truthy. */
  function JobPart(p: Params, truncate: string -> string): (r: string)
    ensures Truthy(p.jobDescription) ==> r == JobLabel + truncate(p.jobDescription.value) + " "
    ensures !Truthy(p.jobDescription) ==> r == ""
  {
    if Truthy(p.jobDescription) then JobLabel + truncate(p.jobDescription.value) + " " else ""
  }

  /** The requirement lines that both backends share: exact count, type mix, difficulty. */
  function Requirements(p: Params): string {
    "\n\nRequirements:\n- Generate exactly " + IntToString(p.questionCount)
    + " questions\n- Include a mix of: " + Join(p.questionTypes, ", ")
    + " questions\n- Difficulty level: " + p.difficulty + "\n"
  }

  /** The prompt: header, resume segment, job segment, requirements, then the backend's closing text. */
  function Prompt(p: Params, truncate: string -> string, tail: string): string {
    Header(p.questionCount) + ResumePart(p, truncate) + JobPart(p, truncate) + Requirements(p) + tail
  }

  lemma AppendEmpty(a: string)
    ensures a + "" == a
  {
  }

  /** Builds the prompt piece by piece, as both handlers append to `prompt`. */
  method AssemblePrompt(p: Params, truncate: string -> string, tail: string) returns (prompt: string)
    ensures prompt == Prompt(p, truncate, tail)
  {
    prompt := Header(p.questionCount);
    if Truthy(p.resumeText) {
      var resumeForPrompt := truncate(p.resumeText.value);
      prompt := prompt + (ResumeLabel + resumeForPrompt + " ");
    } else {
      AppendEmpty(prompt);
    }
    assert prompt == Header(p.questionCount) + ResumePart(p, truncate);
    ghost var before := prompt;
    if Truthy(p.jobDescription) {
      var jobDescForPrompt := truncate(p.jobDescription.value);
      prompt := prompt + (JobLabel + jobDescForPrompt + " ");
    } else {
      AppendEmpty(prompt);
    }
    assert prompt == before + JobPart(p, truncate);
    prompt := prompt + Requirements(p) + tail;
  }

  /** The prompt opens with the header and ends with the requirements and the closing text. */
  lemma PromptFrame(p: Params, truncate: string -> string, tail: string)
    ensures Header(p.questionCount) <= Prompt(p, truncate, tail)
    ensures var s := Prompt(p, truncate, tail); var e := Requirements(p) + tail;
      |e| <= |s| && s[|s| - |e|..] == e
  {
    Framed(Header(p.questionCount), ResumePart(p, truncate), JobPart(p, truncate), Requirements(p), tail);
  }

  /** `s` starts with `head` and ends with `end`. */
  predicate Bracketed(s: string, head: string, end: string) {
    head <= s && |end| <= |s| && s[|s| - |end|..] == end
  }

  /** `a + b + c + d + e` starts with `a` and ends with `d + e`. */
  lemma Framed(a: string, b: string, c: string, d: string, e: string)
    ensures a <= a + b + c + d + e
    ensures var s := a + b + c + d + e;
      |d + e| <= |s| && s[|s| - |d + e|..] == d + e
  {
    var s := a + b + c + d + e;
    assert s[..|a|] == a;
    assert forall k :: 0 <= k < |d + e| ==> s[|s| - |d + e| + k] == (d + e)[k];
  }

  /** How long the prompt is: each text contributes its label, its truncated form and a space. */
  lemma PromptLength(p: Params, truncate: string -> string, tail: string)
    ensures |Prompt(p, truncate, tail)|
      == |Header(p.questionCount)| + |Requirements(p)| + |tail|
       + (if Truthy(p.resumeText) then |ResumeLabel| + |truncate(p.resumeText.value)| + 1 else 0)
       + (if Truthy(p.jobDescription) then |JobLabel| + |truncate(p.jobDescription.value)| + 1 else 0)
  {
  }

  // ---------------------------------------------------------------------------
  // Reading the reply

  /**
   * `reply.match(/\{[\s\S]*\}/)`: the leftmost match starts at the first `{`
   * and, being greedy, ends at the last `}`; there is none when no `}` follows
   * a `{`.
   */
  function ExtractBraced(s: string): (r: Option<string>)
    ensures r.None? <==> !exists i, j :: 0 <= i < j < |s| && s[i] == '{' && s[j] == '}'
    ensures r.Some? ==> exists i, j ::
      && 0 <= i < j < |s| && r.value == s[i..j + 1]
      && s[i] == '{' && s[j] == '}'
      && (forall k :: 0 <= k < i ==> s[k] != '{')
      && (forall k :: j < k < |s| ==> s[k] != '}')
  {
    var i := IndexOf(s, '{');
    var j := LastIndexOf(s, '}');
    if 0 <= i < j then Some(s[i..j + 1]) else None
  }

  /** Prose around one brace-delimited block: the fallback extracts exactly that block. */
  lemma {:induction false} ExtractEmbedded(before: string, block: string, after: string)
    requires 2 <= |block| && block[0] == '{' && block[|block| - 1] == '}'
    requires forall k :: 0 <= k < |before| ==> before[k] != '{'
    requires forall k :: 0 <= k < |after| ==> after[k] != '}'
    ensures ExtractBraced(before + block + after) == Some(block)
  {
    var s := before + block + after;
    var i := IndexOf(s, '{');
    var j := LastIndexOf(s, '}');
    assert s[|before|] == '{';
    assert s[|before| + |block| - 1] == '}';
    assert forall k :: 0 <= k < |before| ==> s[k] == before[k];
    assert forall k :: |before| + |block| <= k < |s| ==> s[k] == after[k - |before| - |block|];
    assert i == |before|;
    assert j == |before| + |block| - 1;
    assert s[i..j + 1] == block;
  }

  datatype ParseFailure =
    | NoJsonInReply    // no `{ ... }` block: 'Failed to parse OpenAI response as JSON'
    | FallbackNotJson  // the extracted block does not parse either

  /** Strict parse of the whole reply, else parse of the extracted block. */
  function ParseReply(parse: string -> Option<Json>, reply: string): Result<Json, ParseFailure> {
    match parse(reply)
    case Some(v) => Success(v)
    case None =>
      match ExtractBraced(reply)
      case None => Failure(NoJsonInReply)
      case Some(block) =>
        match parse(block)
        case Some(v) => Success(v)
        case None => Failure(FallbackNotJson)
  }

  /** `Array.isArray(v) ? v : [v]`. */
  function AsQuestionList(v: Json): (qs: seq<Json>)
    ensures v.JArray? ==> qs == v.items
    ensures !v.JArray? ==> qs == [v]
  {
    if v.JArray? then v.items else [v]
  }

  /** The question list sent back, or why there is none. */
  function ReplyQuestions(parse: string -> Option<Json>, reply: string): Result<seq<Json>, ParseFailure> {
    match ParseReply(parse, reply)
    case Success(v) => Success(AsQuestionList(v))
    case Failure(e) => Failure(e)
  }

  /**
   * Reads the reply as both handlers do: strict parse, else the extracted
   * block, then the array check.
   */
  method ReadReply(parse: string -> Option<Json>, reply: string) returns (r: Result<seq<Json>, ParseFailure>)
    ensures r == ReplyQuestions(parse, reply)
  {
    var questions: Json;
    var strict := parse(reply);
    if strict.Some? {
      questions := strict.value;
    } else {
      var jsonMatch := ExtractBraced(reply);
      if jsonMatch.None? {
        return Failure(NoJsonInReply);
      }
      var fallback := parse(jsonMatch.value);
      if fallback.None? {
        return Failure(FallbackNotJson);
      }
      questions := fallback.value;
    }
    r := Success(AsQuestionList(questions));
  }

  /** A reply that is a JSON array comes back unchanged. */
  lemma ArrayReplyUnchanged(parse: string -> Option<Json>, reply: string, xs: seq<Json>)
    requires parse(reply) == Some(JArray(xs))
    ensures ReplyQuestions(parse, reply) == Success(xs)
  {
  }

  /** An object embedded in prose comes back as a one-element list. */
  lemma EmbeddedObjectWrapped(parse: string -> Option<Json>, before: string, block: string, after: string, v: Json)
    requires parse(before + block + after).None?
    requires 2 <= |block| && block[0] == '{' && block[|block| - 1] == '}'
    requires forall k :: 0 <= k < |before| ==> before[k] != '{'
    requires forall k :: 0 <= k < |after| ==> after[k] != '}'
    requires parse(block) == Some(v) && !v.JArray?
    ensures ReplyQuestions(parse, before + block + after) == Success([v])
  {
    ExtractEmbedded(before, block, after);
  }

  /**
   * A list comes back exactly when the reply, or else its extracted block,
   * parses; the list is then that value's items or the value alone.
   */
  lemma ReplyQuestionsCases(parse: string -> Option<Json>, reply: string)
    ensures ReplyQuestions(parse, reply).Success? <==>
      (parse(reply).Some? || (ExtractBraced(reply).Some? && parse(ExtractBraced(reply).value).Some?))
    ensures parse(reply).Some? ==> ReplyQuestions(parse, reply) == Success(AsQuestionList(parse(reply).value))
    ensures parse(reply).None? && ExtractBraced(reply).Some? && parse(ExtractBraced(reply).value).Some? ==>
      ReplyQuestions(parse, reply) == Success(AsQuestionList(parse(ExtractBraced(reply).value).value))
  {
  }

  // ---------------------------------------------------------------------------
  // Responses

  datatype ResponseBody =
    | ErrorBody(error: string)
    | QuestionsBody(success: bool, questions: seq<Json>, generatedAt: string)
    | TextBody(text: string)
    | ExtractedBody(success: bool, text: string, filename: string, size: nat)

  datatype Response = Response(status: nat, body: ResponseBody)

  function BadRequest(message: string): Response { Response(400, ErrorBody(message)) }
  function ServerError(message: string): Response { Response(500, ErrorBody(message)) }

  /** The response for a model reply: the questions with status 200, or a 500. */
  function ReplyResponse(parse: string -> Option<Json>, reply: string, now: string): (r: Response)
    ensures r.status == 200 <==> ReplyQuestions(parse, reply).Success?
    ensures r.status == 200 ==> r.body == QuestionsBody(true, ReplyQuestions(parse, reply).value, now)
    ensures r.status != 200 ==> r == ServerError(GenerateFailedMessage)
  {
    match ReplyQuestions(parse, reply)
    case Success(qs) => Response(200, QuestionsBody(true, qs, now))
    case Failure(_) => ServerError(GenerateFailedMessage)
  }
}
