/**
 * The application root (src/App.jsx): the time formatter, the colour and icon
 * lookups, the map reducers behind the toggles and the recorder, the request
 * and the session row built by `generateQuestions`, and the component's state
 * with the handlers that change it.
 */
module App {
  import opened Wrappers
  import opened Js
  import opened Protocol
  import opened Sessions
  import opened Api
  import opened Practice
  import opened Display

  // ---------------------------------------------------------------------------
  // formatTime

  /** `${Math.floor(s / 60)}:${(s % 60).toString().padStart(2, '0')}` for a count of seconds. */
  function FormatTime(seconds: nat): (t: string)
    ensures TimeText(t, seconds)
  {
    var m := NatToString(seconds / 60);
    var ss := PadStart(NatToString(seconds % 60), 2, '0');
    SecondsField(seconds % 60);
    ParseNatToString(seconds / 60);
    TimeFields(m, ss, seconds);
    m + ":" + ss
  }

  /** Digits for the minutes, a colon third from the end, and two digits for the seconds. */
  predicate TimeShaped(t: string) {
    |t| >= 4 && t[|t| - 3] == ':' && AllDigits(t[..|t| - 3]) && AllDigits(t[|t| - 2..])
  }

  /**
   * `t` is the time `seconds` as `m:ss`: the minutes field is `seconds / 60`
   * with no leading zero, and the two-digit seconds field is `seconds % 60`.
   */
  predicate TimeText(t: string, seconds: nat) {
    && TimeShaped(t)
    && ParseNat(t[..|t| - 3]) == seconds / 60 && ParseNat(t[|t| - 2..]) == seconds % 60
    && (t[0] != '0' || |t| == 4)
  }

  /** Minutes without a leading zero, a colon and two digits of seconds spell the time. */
  lemma TimeFields(m: string, ss: string, seconds: nat)
    requires |m| >= 1 && AllDigits(m) && (m[0] != '0' || |m| == 1)
    requires |ss| == 2 && AllDigits(ss)
    requires ParseNat(m) == seconds / 60 && ParseNat(ss) == seconds % 60
    ensures TimeText(m + ":" + ss, seconds)
  {
    var t := m + ":" + ss;
    assert t[..|t| - 3] == m;
    assert t[|t| - 2..] == ss;
  }

  /** Minutes and seconds read back from an `m:ss` text: digits, a colon, digits. */
  function ReadTime(t: string): Option<nat> {
    var k := IndexOf(t, ':');
    if k >= 0 then ReadFields(t[..k], t[k + 1..]) else None
  }

  /** The minutes and seconds fields on either side of the colon, when both are digits. */
  function ReadFields(minutes: string, seconds: string): Option<nat> {
    if AllDigits(minutes) && AllDigits(seconds) then Some(60 * ParseNat(minutes) + ParseNat(seconds))
    else None
  }

  /** The seconds field: always two digits, and it reads back as `s % 60`. */
  lemma SecondsField(x: nat)
    requires x < 60
    ensures var ss := PadStart(NatToString(x), 2, '0');
      |ss| == 2 && AllDigits(ss) && ParseNat(ss) == x
  {
    var ss := PadStart(NatToString(x), 2, '0');
    if x < 10 {
      assert NatToString(x) == [DigitChar(x)];
      assert ss == ['0', DigitChar(x)];
      assert ss[..1] == ['0'];
      assert ParseNat(ss[..1]) == 0;
    } else {
      assert NatToString(x / 10) == [DigitChar(x / 10)];
      assert |NatToString(x)| == 2;
      ParseNatToString(x);
    }
  }

  /** A colon after a run of digits is the first colon, so the text splits there. */
  lemma ReadTimeSplits(m: string, ss: string)
    requires AllDigits(m)
    ensures ReadTime(m + [':'] + ss) == ReadFields(m, ss)
  {
    var t := m + [':'] + ss;
    assert t[|m|] == ':';
    assert forall k :: 0 <= k < |m| ==> t[k] == m[k];
    assert IndexOf(t, ':') == |m|;
    assert t[..|m|] == m && t[|m| + 1..] == ss;
  }

  /** Two digit strings around a colon read back as minutes and seconds. */
  lemma ReadTimeOf(m: string, ss: string, total: nat)
    requires AllDigits(m) && AllDigits(ss)
    requires total == 60 * ParseNat(m) + ParseNat(ss)
    ensures ReadTime(m + [':'] + ss) == Some(total)
  {
    ReadFieldsOf(m, ss);
    assert ReadFields(m, ss) == Some(total);
    ReadTimeSplits(m, ss);
  }

  /** Two digit fields read as 60 times the first plus the second. */
  lemma ReadFieldsOf(m: string, ss: string)
    requires AllDigits(m) && AllDigits(ss)
    ensures ReadFields(m, ss) == Some(60 * ParseNat(m) + ParseNat(ss))
  {
  }

  /** `formatTime` loses nothing: the text reads back as the number of seconds. */
  lemma ReadFormatTime(seconds: nat)
    ensures ReadTime(FormatTime(seconds)) == Some(seconds)
  {
    var q, rest := seconds / 60, seconds % 60;
    var m := NatToString(q);
    var ss := PadStart(NatToString(rest), 2, '0');
    SecondsField(rest);
    ParseNatToString(q);
    ReadTimeOf(m, ss, seconds);
    assert FormatTime(seconds) == m + [':'] + ss;
  }

  // ---------------------------------------------------------------------------
  // Colour and icon lookups

  const EasyColor: string := "text-emerald-600 bg-emerald-50"
  const MediumColor: string := "text-amber-600 bg-amber-50"
  const HardColor: string := "text-red-600 bg-red-50"
  const OtherColor: string := "text-blue-600 bg-blue-50"

  /** `getDifficultyColor`: one class per known difficulty, blue for anything else. */
  function DifficultyColor(difficulty: Option<Json>): (c: string)
    ensures difficulty == Some(JString("Easy")) ==> c == EasyColor
    ensures difficulty == Some(JString("Medium")) ==> c == MediumColor
    ensures difficulty == Some(JString("Hard")) ==> c == HardColor
    ensures difficulty !in {Some(JString("Easy")), Some(JString("Medium")), Some(JString("Hard"))} ==> c == OtherColor
  {
    if difficulty == Some(JString("Easy")) then EasyColor
    else if difficulty == Some(JString("Medium")) then MediumColor
    else if difficulty == Some(JString("Hard")) then HardColor
    else OtherColor
  }

  const TechnicalIcon: string := "\U{1F4BB}"
  const BehavioralIcon: string := "\U{1F91D}"
  const DomainIcon: string := "\U{1F3AF}"
  const UnknownIcon: string := "\U{2753}"

  /** `getTypeIcon`: one icon per preference key, a question mark for anything else. */
  function TypeIcon(questionType: Option<Json>): (icon: string)
    ensures questionType == Some(JString(Technical.Name())) ==> icon == TechnicalIcon
    ensures questionType == Some(JString(Behavioral.Name())) ==> icon == BehavioralIcon
    ensures questionType == Some(JString(DomainSpecific.Name())) ==> icon == DomainIcon
    ensures questionType !in {Some(JString("technical")), Some(JString("behavioral")), Some(JString("domainSpecific"))} ==>
      icon == UnknownIcon
  {
    if questionType == Some(JString("technical")) then TechnicalIcon
    else if questionType == Some(JString("behavioral")) then BehavioralIcon
    else if questionType == Some(JString("domainSpecific")) then DomainIcon
    else UnknownIcon
  }

  /** The type pill is coloured by difficulty while the badge beside it is not: they part only off the known values. */
  lemma PillAndBadgeAgreeOnKnownValues(difficulty: Option<Json>)
    ensures Badge(difficulty) == Emerald <==> DifficultyColor(difficulty) == EasyColor
    ensures Badge(difficulty) == Amber <==> DifficultyColor(difficulty) == MediumColor
    ensures difficulty == Some(JString("Hard")) ==> Badge(difficulty) == Red && DifficultyColor(difficulty) == HardColor
    ensures difficulty !in {Some(JString("Easy")), Some(JString("Medium")), Some(JString("Hard"))} ==>
      Badge(difficulty) == Red && DifficultyColor(difficulty) == OtherColor
  {
  }

  // ---------------------------------------------------------------------------
  // Map reducers

  /** `!!m[k]`: a missing key reads as false. */
  function Flag<K>(m: map<K, bool>, k: K): bool {
    k in m && m[k]
  }

  /** `{ ...prev, [k]: !prev[k] }` (toggleAnswer, toggleSampleAnswer). */
  function Flipped<K(!new)>(m: map<K, bool>, k: K): (r: map<K, bool>)
    ensures k in r && r[k] == !Flag(m, k)
    ensures forall k' :: k' != k ==> (k' in r <==> k' in m)
    ensures forall k' :: k' != k && k' in m ==> r[k'] == m[k']
  {
    m[k := !Flag(m, k)]
  }

  /**
   * Two flips read the same as none for every key; the map itself comes
   * back only when `k` was already present (the first flip of a missing key
   * stores `true`, the second `false`).
   */
  lemma FlipTwice<K(!new)>(m: map<K, bool>, k: K)
    ensures forall k' :: Flag(Flipped(Flipped(m, k), k), k') == Flag(m, k')
    ensures k in m ==> Flipped(Flipped(m, k), k) == m
    ensures k !in m ==> Flipped(Flipped(m, k), k) == m[k := false]
  {
  }

  /** A copy with `delete copy[k]`. */
  function Without<K(!new), V>(m: map<K, V>, k: K): (r: map<K, V>)
    ensures k !in r
    ensures forall k' :: k' != k ==> (k' in r <==> k' in m)
    ensures forall k' :: k' != k && k' in m ==> r[k'] == m[k']
  {
    m - {k}
  }

  /** `(prev[q] || 0) + 1`, stored at `q`. */
  function Ticked<K(!new)>(times: map<K, nat>, q: K): (r: map<K, nat>)
    ensures q in r && r[q] == (if q in times then times[q] else 0) + 1
    ensures forall k' :: k' != q ==> (k' in r <==> k' in times)
    ensures forall k' :: k' != q && k' in times ==> r[k'] == times[k']
  {
    times[q := (if q in times then times[q] else 0) + 1]
  }

  /** `n` ticks after the start of a recording its time reads `n`, shown as `formatTime(n)`. */
  function TickedTimes<K(!new)>(times: map<K, nat>, q: K, n: nat): (r: map<K, nat>)
    decreases n
  {
    if n == 0 then times else Ticked(TickedTimes(times, q, n - 1), q)
  }

  lemma {:induction false} TicksCount<K(!new)>(times: map<K, nat>, q: K, n: nat)
    ensures var r := TickedTimes(times[q := 0], q, n); q in r && r[q] == n
    ensures forall k' :: k' != q ==> (k' in TickedTimes(times[q := 0], q, n) <==> k' in times)
    ensures forall k' :: k' != q && k' in times ==> TickedTimes(times[q := 0], q, n)[k'] == times[k']
    decreases n
  {
    if n > 0 {
      TicksCount(times, q, n - 1);
    }
  }

  // ---------------------------------------------------------------------------
  // generateQuestions: the request and the saved row

  /** `Object.keys(selectedPreferences).filter(key => selectedPreferences[key])`. */
  function SelectedTypes(p: Preferences): (types: seq<string>)
    ensures forall k: TypeKey :: k.Name() in types <==> p.Get(k)
    ensures |types| > 0 <==> p.AnySelected()
    ensures forall i, j :: 0 <= i < j < |types| ==> types[i] != types[j]
    ensures p.technical ==> types[0] == "technical"
    ensures p.domainSpecific ==> types[|types| - 1] == "domainSpecific"
    ensures |types| == (if p.technical then 1 else 0) + (if p.behavioral then 1 else 0)
                       + (if p.domainSpecific then 1 else 0)
  {
    (if p.technical then ["technical"] else [])
    + (if p.behavioral then ["behavioral"] else [])
    + (if p.domainSpecific then ["domainSpecific"] else [])
  }

  const ExtractionFailedText: string := "Resume uploaded but text extraction failed"

  /** `resumeText || (uploadedResume ? 'Resume uploaded but text extraction failed' : '')`. */
  function FinalResumeText(resumeText: string, uploadedResume: bool): (t: string)
    ensures resumeText != "" ==> t == resumeText
    ensures resumeText == "" && uploadedResume ==> t == ExtractionFailedText
    ensures resumeText == "" && !uploadedResume ==> t == ""
  {
    if resumeText != "" then resumeText else if uploadedResume then ExtractionFailedText else ""
  }

  /** The arguments handed to `generatePersonalizedQuestions`. */
  function RequestArgs(resumeText: string, uploadedResume: bool, jobDescText: string,
                       p: Preferences, d: DifficultyCounts, questionCount: int): (a: Args)
    ensures a.questionCount == LabelCount(d, questionCount)
    ensures a.questionTypes == Some(SelectedTypes(p))
    ensures a.resumeText == Some(FinalResumeText(resumeText, uploadedResume))
    ensures a.jobDescription == Some(jobDescText)
    ensures a.difficulty == Some(DefaultDifficulty) && a.userId.None?
  {
    Args(Some(FinalResumeText(resumeText, uploadedResume)), Some(jobDescText),
         LabelCount(d, questionCount), Some(SelectedTypes(p)), Some(DefaultDifficulty), None)
  }

  /**
   * What the server reads from the App's request: the count on the button
   * label, exactly the selected types, and a 400 exactly when there is no
   * resume text, no upload and no job description.
   */
  lemma ServerReadsAppRequest(resumeText: string, uploadedResume: bool, jobDescText: string,
                              p: Preferences, d: DifficultyCounts, questionCount: int)
    ensures var params := WithDefaults(RequestBody(RequestArgs(resumeText, uploadedResume, jobDescText, p, d, questionCount)));
      && params.questionCount == LabelCount(d, questionCount)
      && params.questionTypes == SelectedTypes(p)
      && (HasSource(params) <==> resumeText != "" || uploadedResume || jobDescText != "")
  {
    ServerReadsRequest(RequestArgs(resumeText, uploadedResume, jobDescText, p, d, questionCount));
  }

  /** `Practice Session - <types joined by ', '>`. */
  function SessionTitle(types: seq<string>): string {
    "Practice Session - " + Join(types, ", ")
  }

  /** `Math.floor(Math.random() * 30) + 70`. */
  function MockScore(r: real): (score: int)
    requires 0.0 <= r < 1.0
    ensures 70 <= score <= 99
  {
    RandomBelow(r, 30) + 70
  }

  /** `sessionData`: the count is the number of questions returned, the score a draw in [70, 99]. */
  function SessionData(userId: string, types: seq<string>, finalResumeText: string, finalJobDescText: string,
                       questions: seq<Json>, r: real): (row: NewSession)
    requires 0.0 <= r < 1.0
    ensures row.userId == userId && row.questions == questions
    ensures row.questionCount == |questions|
    ensures row.score.Some? && 70 <= row.score.value <= 99
    ensures row.title == Some(SessionTitle(types))
    ensures row.resumeText == Some(finalResumeText) && row.jobDescriptionText == Some(finalJobDescText)
    ensures row.difficulty == "Mixed" && row.duration == Some("30 min")
    ensures row.status.None? && row.questionTypes.None?
  {
    NewSession(userId, Some(SessionTitle(types)), Some(finalResumeText), Some(finalJobDescText),
               |questions|, None, "Mixed", questions, Some(MockScore(r)), Some("30 min"), None)
  }

  /** `result.success && result.questions` on what the API layer returned. */
  function AcceptedQuestions(result: Result<ResponseBody, string>): (qs: Option<seq<Json>>)
    ensures qs.Some? <==> result.Success? && result.value.QuestionsBody? && result.value.success
    ensures qs.Some? ==> qs.value == result.value.questions
  {
    if result.Success? && result.value.QuestionsBody? && result.value.success
    then Some(result.value.questions)
    else None
  }

  /** A 200 from either backend is accepted with its questions; their 400 and 500 are not. */
  lemma BackendRepliesAccepted(parse: string -> Option<Json>, reply: string, now: string)
    ensures var resp := ReplyResponse(parse, reply, now);
      (AcceptedQuestions(Outcome(resp.status, Some(resp.body))).Some? <==> ReplyQuestions(parse, reply).Success?)
    ensures AcceptedQuestions(Outcome(400, Some(BadRequest(MissingSourceMessage).body))).None?
  {
  }

  /** What `loadUserSessions` leaves in `userSessions`. */
  function LoadedSessions(previous: seq<StoredSession>, rows: seq<StoredSession>,
                          user: Result<Option<string>, string>, fetchError: Option<string>): (r: seq<StoredSession>)
    ensures user.Failure? ==> r == []
    ensures user == Success(None) ==> r == previous
    ensures user.Success? && user.value.Some? && fetchError.Some? ==> r == []
    ensures user.Success? && user.value.Some? && fetchError.None? ==> r == NewestFirst(rows, user.value.value)
  {
    match user
    case Failure(_) => []
    case Success(None) => previous
    case Success(Some(u)) => if fetchError.Some? then [] else NewestFirst(rows, u)
  }

  /**
   * The practice view cuts the generated list with the stepper's count
   * although the request asked for the difficulty total: whenever the
   * counters add up to more than the stepper shows, a reply of exactly the
   * requested size is announced in full but shown only in part.
   */
  lemma ShownFewerThanGenerated(d: DifficultyCounts, questionCount: int, questions: seq<Json>, mock: seq<Json>)
    requires NonNegative(d) && MinCount <= questionCount <= MaxCount
    requires d.Total() > questionCount
    requires |questions| == LabelCount(d, questionCount)
    ensures HeaderCount(questions, mock) == d.Total()
    ensures |ShownList(questions, mock, questionCount)| == questionCount < HeaderCount(questions, mock)
  {
  }

  /** Ten Easy questions with the stepper at its default 5: "Generated 10" over five cards. */
  lemma TenRequestedFiveShown(questions: seq<Json>, mock: seq<Json>)
    requires |questions| == 10
    ensures LabelCount(DifficultyCounts(10, 0, 0), Initial.questionCount) == 10
    ensures HeaderCount(questions, mock) == 10 && |ShownList(questions, mock, Initial.questionCount)| == 5
  {
    ShownFewerThanGenerated(DifficultyCounts(10, 0, 0), 5, questions, mock);
  }

  /** The intended list shows every question the request asked for. */
  lemma IntendedShowsRequested(d: DifficultyCounts, questionCount: int, questions: seq<Json>, mock: seq<Json>)
    requires |questions| == LabelCount(d, questionCount) > 0
    ensures |IntendedList(questions, mock, questionCount)| == LabelCount(d, questionCount)
    ensures |IntendedList(questions, mock, questionCount)| == HeaderCount(questions, mock)
  {
    IntendedMatchesHeader(questions, mock, questionCount);
  }

  // ---------------------------------------------------------------------------
  // The component's state

  datatype Page = Welcome | Login | Dashboard

  type QuestionKey = Json

  /** Every piece of state the modelled handlers read or write. */
  datatype AppState = AppState(
    isLoggedIn: bool,
    currentPage: Page,
    selectedPreferences: Preferences,
    difficultyPreferences: DifficultyCounts,
    questionCount: int,
    questionsGenerated: bool,
    generatedQuestions: seq<Json>,
    expandedAnswers: map<QuestionKey, bool>,
    expandedSampleAnswers: map<QuestionKey, bool>,
    recordingStates: map<QuestionKey, bool>,
    recordingTimes: map<QuestionKey, nat>,
    audioUrls: map<QuestionKey, string>,
    recorderFor: Option<QuestionKey>,
    timerFor: Option<QuestionKey>,
    onstopFor: Option<QuestionKey>,  // the question the latest recorder's `onstop` closure captured
    userSessions: seq<StoredSession>,
    sessionsLoading: bool,
    sessionsLoaded: bool,
    isProcessing: bool,
    showFullScreenLoader: bool,
    resumeText: string,
    uploadedResume: bool,
    jobDescText: string)

  /** `setQuestionsGenerated(v)` and the effect on that flag: a change empties the three recording maps. */
  function FlagChanged(s: AppState, v: bool): (t: AppState)
    ensures t.questionsGenerated == v
    ensures v != s.questionsGenerated ==> t.recordingStates == map[] && t.recordingTimes == map[] && t.audioUrls == map[]
    ensures v == s.questionsGenerated ==> t == s
  {
    if v == s.questionsGenerated then s
    else s.(questionsGenerated := v, recordingStates := map[], recordingTimes := map[], audioUrls := map[])
  }

  /** The end state of `loadUserSessions`: nothing when signed out, otherwise the sessions read and marked loaded. */
  function SessionsLoaded(s: AppState, rows: seq<StoredSession>, user: Result<Option<string>, string>,
                          fetchError: Option<string>): (t: AppState)
    ensures !s.isLoggedIn ==> t == s
    ensures s.isLoggedIn ==> t == s.(userSessions := LoadedSessions(s.userSessions, rows, user, fetchError),
                                     sessionsLoading := false, sessionsLoaded := true)
  {
    if !s.isLoggedIn then s
    else s.(userSessions := LoadedSessions(s.userSessions, rows, user, fetchError),
            sessionsLoading := false, sessionsLoaded := true)
  }

  /** The body `generateQuestions` sends from the state it starts in. */
  function GenerateRequest(s: AppState): Body {
    RequestBody(RequestArgs(s.resumeText, s.uploadedResume, s.jobDescText,
                            s.selectedPreferences, s.difficultyPreferences, s.questionCount))
  }

  /** The questions `generateQuestions` takes from the backend's reply to its request. */
  function Accepted(respond: Body -> (nat, Option<ResponseBody>), request: Body): Option<seq<Json>> {
    AcceptedQuestions(Outcome(respond(request).0, respond(request).1))
  }

  /** The practice session a signed-in user's accepted questions are saved as. */
  function SavedRow(s: AppState, userId: string, questions: seq<Json>, r: real): NewSession
    requires 0.0 <= r < 1.0
  {
    SessionData(userId, SelectedTypes(s.selectedPreferences), FinalResumeText(s.resumeText, s.uploadedResume),
                s.jobDescText, questions, r)
  }

  /** Whether the save is attempted and succeeds: questions accepted, signed in, a user found, no insert error. */
  predicate Saves(s: AppState, accepted: Option<seq<Json>>, user: Result<Option<string>, string>,
                  saveError: Option<string>) {
    accepted.Some? && s.isLoggedIn && user.Success? && user.value.Some? && saveError.None?
  }

  /**
   * The end state of the success branch of `generateQuestions`: the
   * accepted questions stored and the view switched to them, and the
   * sessions reloaded after a save.
   */
  function Received(s: AppState, accepted: Option<seq<Json>>, saved: bool, rows: seq<StoredSession>,
                    user: Result<Option<string>, string>, fetchError: Option<string>): AppState
  {
    var shown := if accepted.Some? then FlagChanged(s.(generatedQuestions := accepted.value), true) else s;
    if saved then SessionsLoaded(shown, rows, user, fetchError) else shown
  }

  /**
   * The end state of `generateQuestions` once its guard passed: the loader
   * is shown while the request runs and cleared in `finally`.
   */
  function Generated(s: AppState, accepted: Option<seq<Json>>, saved: bool, rows: seq<StoredSession>,
                     user: Result<Option<string>, string>, fetchError: Option<string>): AppState
  {
    Received(s.(isProcessing := true, showFullScreenLoader := true), accepted, saved, rows, user, fetchError)
      .(isProcessing := false, showFullScreenLoader := false)
  }

  /**
   * After a generation the processing flags are clear; accepted questions
   * are the ones shown; a rejected reply changes nothing else; and a saved
   * session heads the reloaded list when the reload succeeds.
   */
  lemma GeneratedOutcome(s: AppState, accepted: Option<seq<Json>>, rows: seq<StoredSession>,
                         user: Result<Option<string>, string>, saveError: Option<string>,
                         fetchError: Option<string>, stored: StoredSession)
    ensures var saved := Saves(s, accepted, user, saveError);
      var t := Generated(s, accepted, saved, rows + (if saved then [stored] else []), user, fetchError);
      && !t.isProcessing && !t.showFullScreenLoader
      && (accepted.Some? ==> t.generatedQuestions == accepted.value && t.questionsGenerated)
      && (accepted.None? ==> t == s.(isProcessing := false, showFullScreenLoader := false))
      && (saved && fetchError.None? && stored.data.userId == user.value.value ==>
            t.userSessions == [stored] + NewestFirst(rows, user.value.value) && t.sessionsLoaded)
      && (!saved ==> t.userSessions == s.userSessions)
  {
    if Saves(s, accepted, user, saveError) {
      NewestFirstAppend(rows, stored, user.value.value);
    }
  }

  /** The initial `useState` values. */
  const Initial: AppState :=
    AppState(false, Welcome, Preferences(false, false, false), ZeroCounts, 5, false, [],
             map[], map[], map[], map[], map[], None, None, None, [], false, false, false, false, "", false, "")

  /** The component: its state hooks are the one record `state`, each handler replaces it. */
  class App {
    var state: AppState

    /** The stepper's count stays in [1, 20] and no difficulty counter is negative. */
    ghost predicate Valid()
      reads this
    {
      MinCount <= state.questionCount <= MaxCount && NonNegative(state.difficultyPreferences)
    }

    constructor ()
      ensures Valid()
      ensures state == Initial
    {
      state := Initial;
    }

    /** `togglePreference(k)`. */
    method TogglePreference(k: TypeKey)
      requires Valid()
      modifies this
      ensures Valid()
      ensures state == old(state).(selectedPreferences := old(state).selectedPreferences.Toggled(k))
    {
      state := state.(selectedPreferences := state.selectedPreferences.Toggled(k));
    }

    /** `toggleAnswer(q)`. */
    method ToggleAnswer(q: QuestionKey)
      requires Valid()
      modifies this
      ensures Valid()
      ensures state == old(state).(expandedAnswers := Flipped(old(state).expandedAnswers, q))
    {
      state := state.(expandedAnswers := Flipped(state.expandedAnswers, q));
    }

    /** `toggleSampleAnswer(q)`. */
    method ToggleSampleAnswer(q: QuestionKey)
      requires Valid()
      modifies this
      ensures Valid()
      ensures state == old(state).(expandedSampleAnswers := Flipped(old(state).expandedSampleAnswers, q))
    {
      state := state.(expandedSampleAnswers := Flipped(state.expandedSampleAnswers, q));
    }

    /** The stepper's minus and plus buttons. */
    method StepQuestionCount(up: bool)
      requires Valid()
      modifies this
      ensures Valid()
      ensures state == old(state).(questionCount :=
        if up then IncrementCount(old(state).questionCount) else DecrementCount(old(state).questionCount))
    {
      CountStaysInRange(state.questionCount);
      state := state.(questionCount :=
        if up then IncrementCount(state.questionCount) else DecrementCount(state.questionCount));
    }

    /** A difficulty counter's minus and plus buttons. */
    method StepLevel(k: Level, up: bool)
      requires Valid()
      modifies this
      ensures Valid()
      ensures state == old(state).(difficultyPreferences :=
        if up then IncrementLevel(old(state).difficultyPreferences, k)
        else DecrementLevel(old(state).difficultyPreferences, k))
    {
      LevelSteps(state.difficultyPreferences, k);
      state := state.(difficultyPreferences :=
        if up then IncrementLevel(state.difficultyPreferences, k) else DecrementLevel(state.difficultyPreferences, k));
    }

    /** "Reset to default". */
    method ResetLevels()
      requires Valid()
      modifies this
      ensures Valid()
      ensures state == old(state).(difficultyPreferences := ZeroCounts)
    {
      state := state.(difficultyPreferences := ZeroCounts);
    }

    /**
     * `startRecording(q)`: with microphone access the recorder starts for
     * `q`, `q` is marked recording with time 0 and the interval counts for
     * `q`; without it nothing changes.
     */
    method StartRecording(q: QuestionKey, microphoneGranted: bool)
      requires Valid()
      modifies this
      ensures Valid()
      ensures !microphoneGranted ==> state == old(state)
      ensures microphoneGranted ==> state == old(state).(
        recordingStates := old(state).recordingStates[q := true],
        recordingTimes := old(state).recordingTimes[q := 0],
        recorderFor := Some(q), timerFor := Some(q), onstopFor := Some(q))
    {
      if !microphoneGranted {
        return;
      }
      state := state.(recorderFor := Some(q), onstopFor := Some(q));
      state := state.(recordingStates := state.recordingStates[q := true],
                      recordingTimes := state.recordingTimes[q := 0]);
      state := state.(timerFor := Some(q));
    }

    /** One tick of the interval: only the counted question's time grows. */
    method TimerTick()
      requires Valid()
      modifies this
      ensures Valid()
      ensures old(state).timerFor.None? ==> state == old(state)
      ensures old(state).timerFor.Some? ==>
        state == old(state).(recordingTimes := Ticked(old(state).recordingTimes, old(state).timerFor.value))
    {
      if state.timerFor.Some? {
        state := state.(recordingTimes := Ticked(state.recordingTimes, state.timerFor.value));
      }
    }

    /** `stopRecording(q)`: only an active recorder stops; `q` is marked not recording and the interval is cleared. */
    method StopRecording(q: QuestionKey)
      requires Valid()
      modifies this
      ensures Valid()
      ensures old(state).recorderFor.None? ==> state == old(state)
      ensures old(state).recorderFor.Some? ==> state == old(state).(
        recordingStates := old(state).recordingStates[q := false], recorderFor := None, timerFor := None)
    {
      if state.recorderFor.Some? {
        state := state.(recordingStates := state.recordingStates[q := false], recorderFor := None);
        state := state.(timerFor := None);
      }
    }

    /**
     * The recorder's `onstop`: the recording's URL is stored for the question
     * captured when that recorder was started; with no recorder ever started
     * there is no handler and nothing happens.
     */
    method RecorderStopped(url: string)
      requires Valid()
      modifies this
      ensures Valid()
      ensures old(state).onstopFor.None? ==> state == old(state)
      ensures old(state).onstopFor.Some? ==>
        state == old(state).(audioUrls := old(state).audioUrls[old(state).onstopFor.value := url])
    {
      if state.onstopFor.Some? {
        state := state.(audioUrls := state.audioUrls[state.onstopFor.value := url]);
      }
    }

    /** `clearRecording(q)`: `q` leaves the URLs and the times, everything else stays. */
    method ClearRecording(q: QuestionKey)
      requires Valid()
      modifies this
      ensures Valid()
      ensures state == old(state).(recordingTimes := Without(old(state).recordingTimes, q),
                                   audioUrls := Without(old(state).audioUrls, q))
    {
      state := state.(audioUrls := Without(state.audioUrls, q));
      state := state.(recordingTimes := Without(state.recordingTimes, q));
    }

    /** `setQuestionsGenerated(v)`, followed by the effect that watches the flag. */
    method SetQuestionsGenerated(v: bool)
      requires Valid()
      modifies this
      ensures Valid()
      ensures state == FlagChanged(old(state), v)
    {
      if v != state.questionsGenerated {
        state := state.(questionsGenerated := v);
        state := state.(recordingStates := map[], recordingTimes := map[], audioUrls := map[]);
      }
    }

    /** `handleGuestMode`. */
    method GuestMode()
      requires Valid()
      modifies this
      ensures Valid()
      ensures state == old(state).(isLoggedIn := true, currentPage := Dashboard)
    {
      state := state.(isLoggedIn := true, currentPage := Dashboard);
    }

    /** `handleLogOut`: signed out, back to the welcome page, sessions dropped, counters zeroed. */
    method LogOut()
      requires Valid()
      modifies this
      ensures Valid()
      ensures state == old(state).(isLoggedIn := false, currentPage := Welcome, difficultyPreferences := ZeroCounts,
                                   userSessions := [], sessionsLoaded := false)
    {
      state := state.(isLoggedIn := false, currentPage := Welcome);
      state := state.(userSessions := [], sessionsLoaded := false);
      state := state.(difficultyPreferences := ZeroCounts);
    }

    /**
     * `loadUserSessions`: does nothing when signed out; otherwise reads the
     * current user (`user`, a failure when the call throws) and that user's
     * sessions (`fetchError` when the query fails), and marks them loaded.
     */
    method LoadUserSessions(store: Store, user: Result<Option<string>, string>, fetchError: Option<string>)
      requires Valid()
      modifies this
      ensures Valid()
      ensures state == SessionsLoaded(old(state), store.rows, user, fetchError)
    {
      if !state.isLoggedIn {
        return;
      }
      state := state.(sessionsLoading := true);
      var loaded := state.userSessions;
      if user.Failure? {
        loaded := [];
      } else if user.value.Some? {
        var sessions := GetUserSessions(store, user.value.value, fetchError);
        loaded := if sessions.Success? then sessions.value else [];
      }
      state := state.(userSessions := loaded, sessionsLoading := false, sessionsLoaded := true);
    }

    /**
     * The save inside that branch for a signed-in user with a user record:
     * the session row is built from the state, inserted, and after a
     * successful insert the sessions are reloaded; a failed insert is caught
     * and changes nothing.
     */
    method SaveSession(store: Store, userId: string, questions: seq<Json>, user: Result<Option<string>, string>,
                       r: real, saveError: Option<string>, fetchError: Option<string>, now: string)
      requires 0.0 <= r < 1.0
      requires store.Valid()
      requires Valid()
      requires state.isLoggedIn && user == Success(Some(userId))
      modifies this, store
      ensures Valid()
      ensures store.Valid()
      ensures store.rows == old(store.rows) + (if saveError.None? then [StoredSession(|old(store.rows)|, now,
                                                SavedRow(old(state), userId, questions, r))] else [])
      ensures state == if saveError.None? then SessionsLoaded(old(state), store.rows, user, fetchError) else old(state)
    {
      var sessionData := SessionData(userId, SelectedTypes(state.selectedPreferences),
                                     FinalResumeText(state.resumeText, state.uploadedResume),
                                     state.jobDescText, questions, r);
      var result := SavePracticeSession(store, sessionData, now, saveError);
      if result.Success? {
        LoadUserSessions(store, user, fetchError);
      }
    }

    /** The questions are stored and the view switches to them. */
    method ShowQuestions(questions: seq<Json>)
      requires Valid()
      modifies this
      ensures Valid()
      ensures state == FlagChanged(old(state).(generatedQuestions := questions), true)
    {
      state := state.(generatedQuestions := questions);
      SetQuestionsGenerated(true);
    }

    /**
     * The branch of `generateQuestions` taken when the reply carries
     * questions: they are shown, and for a signed-in user with a user record
     * they are saved and the session list is reloaded.
     */
    method Receive(store: Store, accepted: Option<seq<Json>>, user: Result<Option<string>, string>, r: real,
                   saveError: Option<string>, fetchError: Option<string>, now: string)
      requires 0.0 <= r < 1.0
      requires store.Valid()
      requires Valid()
      modifies this, store
      ensures Valid()
      ensures store.Valid()
      ensures var saved := Saves(old(state), accepted, user, saveError);
        && store.rows == old(store.rows) + (if saved then [StoredSession(|old(store.rows)|, now,
                                              SavedRow(old(state), user.value.value, accepted.value, r))] else [])
        && state == Received(old(state), accepted, saved, store.rows, user, fetchError)
    {
      if accepted.None? {
        return;
      }
      ShowQuestions(accepted.value);
      if state.isLoggedIn && user.Success? && user.value.Some? {
        SaveSession(store, user.value.value, accepted.value, user, r, saveError, fetchError, now);
      }
    }

    /**
     * `generateQuestions`.  `respond` stands for the HTTP exchange (the
     * status and the JSON body, None when it is not JSON), `user` for the
     * current-user lookup, `r` for `Math.random()`, `saveError` and
     * `fetchError` for the two database calls.  Returns the request body
     * sent, None when the guard stopped it.
     */
    method GenerateQuestions(store: Store, respond: Body -> (nat, Option<ResponseBody>),
                             user: Result<Option<string>, string>, r: real,
                             saveError: Option<string>, fetchError: Option<string>, now: string)
      returns (sent: Option<Body>)
      requires 0.0 <= r < 1.0
      requires store.Valid()
      requires Valid()
      modifies this, store
      ensures Valid()
      ensures store.Valid()
      ensures !old(state).selectedPreferences.AnySelected() ==>
        sent.None? && state == old(state) && store.rows == old(store.rows)
      ensures old(state).selectedPreferences.AnySelected() ==> sent == Some(GenerateRequest(old(state)))
      ensures GenerateEnabled(old(state).selectedPreferences, old(state).isProcessing, old(state).showFullScreenLoader)
        ==> sent.Some?
      ensures sent.Some? ==>
        var accepted := Accepted(respond, sent.value);
        var saved := Saves(old(state), accepted, user, saveError);
        && store.rows == old(store.rows) + (if saved then [StoredSession(|old(store.rows)|, now,
                                              SavedRow(old(state), user.value.value, accepted.value, r))] else [])
        && state == Generated(old(state), accepted, saved, store.rows, user, fetchError)
    {
      if !state.selectedPreferences.AnySelected() {
        return None;
      }
      state := state.(isProcessing := true, showFullScreenLoader := true);
      var finalResumeText := FinalResumeText(state.resumeText, state.uploadedResume);
      var finalJobDescText := state.jobDescText;
      var selectedTypes := SelectedTypes(state.selectedPreferences);
      var finalQuestionCount := LabelCount(state.difficultyPreferences, state.questionCount);
      var params := PersonalizedParams(Args(Some(finalResumeText), Some(finalJobDescText), finalQuestionCount,
                                            Some(selectedTypes), Some(DefaultDifficulty), None));
      sent := Some(params);
      var reply := respond(params);
      var accepted := AcceptedQuestions(Outcome(reply.0, reply.1));
      Receive(store, accepted, user, r, saveError, fetchError, now);
      state := state.(isProcessing := false, showFullScreenLoader := false);
    }
  }
}
