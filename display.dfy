/**
 * The question list (src/components/QuestionsDisplay.jsx): which list is
 * shown and how much of it, the header count, the difficulty badge, the
 * per-question record control, when recording buttons are disabled, and the
 * fallbacks of the answer panels.
 */
module Display {
  import opened Wrappers
  import opened Js
  import opened Protocol

  /** `generatedQuestions.length > 0 ? generatedQuestions : mockQuestions`. */
  function ChosenList(generated: seq<Json>, mock: seq<Json>): (qs: seq<Json>)
    ensures |generated| > 0 ==> qs == generated
    ensures |generated| == 0 ==> qs == mock
  {
    if |generated| > 0 then generated else mock
  }

  /** The chosen list cut with `.slice(0, questionCount)`. */
  function ShownList(generated: seq<Json>, mock: seq<Json>, questionCount: int): (qs: seq<Json>)
    ensures qs <= ChosenList(generated, mock)
    ensures questionCount >= 0 ==> |qs| == Min(questionCount, |ChosenList(generated, mock)|)
  {
    SliceTo(ChosenList(generated, mock), questionCount)
  }

  /** `Generated N personalized questions`: the length of the chosen list, uncut. */
  function HeaderCount(generated: seq<Json>, mock: seq<Json>): (n: nat)
    ensures n == |ChosenList(generated, mock)|
  {
    if |generated| > 0 then |generated| else |mock|
  }

  /** The header overstates the cards shown exactly when the count is below the chosen list's length. */
  lemma HeaderVersusShown(generated: seq<Json>, mock: seq<Json>, questionCount: int)
    requires questionCount >= 0
    ensures |ShownList(generated, mock, questionCount)| <= HeaderCount(generated, mock)
    ensures |ShownList(generated, mock, questionCount)| == HeaderCount(generated, mock)
      <==> questionCount >= |ChosenList(generated, mock)|
  {
  }

  /**
   * The list meant to be shown: every generated question, as the header
   * announces, and the mock questions cut to the count only as a fallback.
   */
  function IntendedList(generated: seq<Json>, mock: seq<Json>, questionCount: int): (qs: seq<Json>)
    ensures |generated| > 0 ==> qs == generated
    ensures |generated| == 0 ==> qs == ShownList(generated, mock, questionCount)
  {
    if |generated| > 0 then generated else ShownList(generated, mock, questionCount)
  }

  /** With generated questions the intended list and the header always agree. */
  lemma IntendedMatchesHeader(generated: seq<Json>, mock: seq<Json>, questionCount: int)
    requires |generated| > 0
    ensures |IntendedList(generated, mock, questionCount)| == HeaderCount(generated, mock)
    ensures questionCount >= |generated| ==>
      IntendedList(generated, mock, questionCount) == ShownList(generated, mock, questionCount)
  {
  }

  datatype BadgeColor = Emerald | Amber | Red

  /** The difficulty badge: no default branch of its own, so every value but Easy and Medium is red. */
  function Badge(difficulty: Option<Json>): (c: BadgeColor)
    ensures c == Emerald <==> difficulty == Some(JString("Easy"))
    ensures c == Amber <==> difficulty == Some(JString("Medium"))
    ensures c == Red <==> difficulty != Some(JString("Easy")) && difficulty != Some(JString("Medium"))
  {
    if difficulty == Some(JString("Easy")) then Emerald
    else if difficulty == Some(JString("Medium")) then Amber
    else Red
  }

  datatype RecordControl = RecordButton | StopButton | NoButton

  /**
   * The control beside a question: Record when it is neither recording nor
   * recorded, Stop while it records, nothing once a recording exists.
   */
  function Control(recording: bool, hasAudio: bool): (c: RecordControl)
    ensures c == StopButton <==> recording
    ensures c == RecordButton <==> !recording && !hasAudio
    ensures c == NoButton <==> !recording && hasAudio
  {
    if !recording && !hasAudio then RecordButton
    else if recording then StopButton
    else NoButton
  }

  /** `Object.values(recordingStates).some(Boolean)`. */
  predicate AnyRecording<K>(recordingStates: map<K, bool>) {
    exists k :: k in recordingStates && recordingStates[k]
  }

  /**
   * The Record and Practice Again buttons share one `disabled` condition, so
   * while any question records no question can start another recording.
   */
  function RecordDisabled<K>(recordingStates: map<K, bool>): (d: bool)
    ensures d <==> AnyRecording(recordingStates)
  {
    AnyRecording(recordingStates)
  }

  /** A question showing Stop disables every Record button, its own row included. */
  lemma StopDisablesRecord<K>(recordingStates: map<K, bool>, q: K)
    requires q in recordingStates && recordingStates[q]
    ensures Control(recordingStates[q], false) == StopButton
    ensures RecordDisabled(recordingStates)
  {
  }

  const NoSampleMessage: string := "Sample answer not available yet."

  /** `question.answerGuide || question.answer`. */
  function GuideText(question: Json): (g: Option<Json>)
    ensures JsTruthy(Member(question, "answerGuide")) ==> g == Member(question, "answerGuide")
    ensures !JsTruthy(Member(question, "answerGuide")) ==> g == Member(question, "answer")
  {
    if JsTruthy(Member(question, "answerGuide")) then Member(question, "answerGuide")
    else Member(question, "answer")
  }

  /** `question.sampleAnswer || 'Sample answer not available yet.'`. */
  function SampleText(question: Json): (s: Json)
    ensures JsTruthy(Member(question, "sampleAnswer")) ==> Some(s) == Member(question, "sampleAnswer")
    ensures !JsTruthy(Member(question, "sampleAnswer")) ==> s == JString(NoSampleMessage)
  {
    var v := Member(question, "sampleAnswer");
    if JsTruthy(v) then v.value else JString(NoSampleMessage)
  }

  /**
   * A question in the serverless function's format (an `answer` field, no
   * `answerGuide` or `sampleAnswer`) shows its answer as the guide and the
   * fixed message as the sample.
   */
  lemma AnswerOnlyQuestion(id: Json, answer: string)
    ensures var q := JObject([("id", id), ("answer", JString(answer))]);
      GuideText(q) == Some(JString(answer)) && SampleText(q) == JString(NoSampleMessage)
  {
    var q := JObject([("id", id), ("answer", JString(answer))]);
    assert Member(q, "answerGuide").None?;
    assert Member(q, "sampleAnswer").None?;
    assert Member(q, "answer") == Some(JString(answer));
  }

  /** A question in the server's format shows its own guide and sample when they are non-empty. */
  lemma GuideAndSampleQuestion(guide: string, sample: string)
    requires guide != "" && sample != ""
    ensures var q := JObject([("answerGuide", JString(guide)), ("sampleAnswer", JString(sample))]);
      GuideText(q) == Some(JString(guide)) && SampleText(q) == JString(sample)
  {
    var q := JObject([("answerGuide", JString(guide)), ("sampleAnswer", JString(sample))]);
    assert Member(q, "sampleAnswer") == Some(JString(sample));
    assert q.fields[1].0 != "answerGuide";
    assert q.fields[..1] == [("answerGuide", JString(guide))];
    assert LastBinding([("answerGuide", JString(guide))], "answerGuide") == Some(JString(guide));
    assert Member(q, "answerGuide") == Some(JString(guide));
  }
}
