/**
 * The history page (frontend/src/components/HistoryPage.jsx): the four
 * statistics computed from the user's sessions, the score tiers, the
 * session difficulty badge and the guard that loads the sessions.
 */
module History {
  import opened Wrappers
  import opened Js
  import opened Protocol
  import opened Sessions
  import opened App

  // ---------------------------------------------------------------------------
  // Questions practiced, as written

  /**
   * The text of `v` as an element of an array that `String` prints: `null`
   * prints as nothing, a string as itself, an array as its elements joined
   * by commas, and an object as `[object Object]`.
   */
  function JsText(v: Json): (r: string)
    ensures v.JNull? ==> r == ""
    ensures v.JString? ==> r == v.s
    ensures v == JArray([]) ==> r == ""
    ensures v.JObject? ==> r == "[object Object]"
    ensures v.JArray? && |v.items| == 1 ==> r == JsText(v.items[0])
    decreases v
  {
    match v
    case JNull => ""
    case JBool(b) => if b then "true" else "false"
    case JNumber(n) => IntToString(n)
    case JString(s) => s
    case JArray(items) => Join(seq(|items|, i requires 0 <= i < |items| => JsText(items[i])), ",")
    case JObject(_) => "[object Object]"
  }

  /** What `session.question_count || session.questions || 0` picks: the count unless it is 0, else the array, which is always truthy. */
  datatype Term = Count(n: int) | Questions(items: seq<Json>)

  function TermOf(s: StoredSession): (t: Term)
    ensures s.data.questionCount != 0 ==> t == Count(s.data.questionCount)
    ensures s.data.questionCount == 0 ==> t == Questions(s.data.questions)
  {
    if s.data.questionCount != 0 then Count(s.data.questionCount) else Questions(s.data.questions)
  }

  /** The running value of the `reduce`: a number until an array is added, a string from then on. */
  datatype Acc = Num(n: int) | Text(s: string)

  /** JavaScript `+`: numbers add, anything added to or onto a string concatenates. */
  function Plus(acc: Acc, t: Term): (r: Acc)
    ensures acc.Num? && t.Count? ==> r == Num(acc.n + t.n)
    ensures acc.Text? || t.Questions? ==> r.Text?
  {
    match (acc, t)
    case (Num(a), Count(n)) => Num(a + n)
    case (Num(a), Questions(q)) => Text(IntToString(a) + JsText(JArray(q)))
    case (Text(s), Count(n)) => Text(s + IntToString(n))
    case (Text(s), Questions(q)) => Text(s + JsText(JArray(q)))
  }

  /** `sessions.reduce((sum, session) => sum + term(session), acc)`, left to right. */
  function FoldAsWritten(sessions: seq<StoredSession>, acc: Acc): Acc
    decreases |sessions|
  {
    if |sessions| == 0 then acc else FoldAsWritten(sessions[1..], Plus(acc, TermOf(sessions[0])))
  }

  /** `totalQuestions` as written. */
  function TotalQuestionsAsWritten(sessions: seq<StoredSession>, loading: bool): (r: Acc)
    ensures loading ==> r == Num(0)
  {
    if loading then Num(0) else FoldAsWritten(sessions, Num(0))
  }

  /** Once the running value is a string it stays one. */
  lemma {:induction false} TextStaysText(sessions: seq<StoredSession>, acc: Acc)
    requires acc.Text?
    ensures FoldAsWritten(sessions, acc).Text?
    decreases |sessions|
  {
    if |sessions| > 0 {
      TextStaysText(sessions[1..], Plus(acc, TermOf(sessions[0])));
    }
  }

  /** A single session stored with `question_count` 0 turns the statistic into a string. */
  lemma {:induction false} ZeroCountGivesText(sessions: seq<StoredSession>, acc: Acc, k: nat)
    requires k < |sessions| && sessions[k].data.questionCount == 0
    ensures FoldAsWritten(sessions, acc).Text?
    decreases |sessions|
  {
    var next := Plus(acc, TermOf(sessions[0]));
    if k == 0 {
      TextStaysText(sessions[1..], next);
    } else {
      ZeroCountGivesText(sessions[1..], next, k - 1);
    }
  }

  /** A row as the App stores it: `question_count` is the number of questions returned. */
  function AppRow(id: nat, questions: seq<Json>): StoredSession {
    StoredSession(id, "", NewSession("u", None, None, None, |questions|, None, "Mixed", questions, Some(70), None, None))
  }

  /**
   * Sessions of 5, 0 and 3 questions (the middle one saved from an empty
   * reply) show "53" questions practiced instead of 8.
   */
  lemma EmptySessionConcatenates()
    ensures var q5 := seq(5, i => JNull);
      var q3 := seq(3, i => JNull);
      TotalQuestionsAsWritten([AppRow(2, q5), AppRow(1, []), AppRow(0, q3)], false) == Text("53")
    ensures var q5 := seq(5, i => JNull);
      var q3 := seq(3, i => JNull);
      TotalQuestions([AppRow(2, q5), AppRow(1, []), AppRow(0, q3)], false) == 8
  {
    var q5 := seq(5, i => JNull);
    var q3 := seq(3, i => JNull);
    var rows := [AppRow(2, q5), AppRow(1, []), AppRow(0, q3)];
    assert JsText(JArray([])) == "";
    assert DigitChar(5) == '5' && DigitChar(3) == '3';
    assert IntToString(5) == "5" && IntToString(3) == "3";
    assert rows[1..][1..] == [AppRow(0, q3)];
    assert FoldAsWritten(rows, Num(0)) == FoldAsWritten(rows[1..], Num(5));
    assert rows[1..][0] == AppRow(1, []) && TermOf(AppRow(1, [])) == Questions([]);
    assert Plus(Num(5), Questions([])) == Text("5" + JsText(JArray([])));
    assert "5" + JsText(JArray([])) == "5";
    assert Plus(Num(5), TermOf(rows[1..][0])) == Text("5");
    assert FoldAsWritten(rows[1..], Num(5)) == FoldAsWritten(rows[1..][1..], Text("5"));
    assert FoldAsWritten(rows[1..][1..], Text("5")) == FoldAsWritten([], Text("53"));
    assert TermCount(rows[0]) == 5 && TermCount(rows[1]) == 0 && TermCount(rows[2]) == 3;
    assert rows == [rows[0]] + [rows[1]] + [rows[2]];
    SumTermsAppend([rows[0]], [rows[1]]);
    SumTermsAppend([rows[0]] + [rows[1]], [rows[2]]);
  }

  // ---------------------------------------------------------------------------
  // Questions practiced, as intended

  /** `session.question_count || session.questions.length`: the count, or the stored questions when it is 0. */
  function TermCount(s: StoredSession): (n: int)
    ensures s.data.questionCount != 0 ==> n == s.data.questionCount
    ensures s.data.questionCount == 0 ==> n == |s.data.questions|
  {
    if s.data.questionCount != 0 then s.data.questionCount else |s.data.questions|
  }

  function SumTerms(sessions: seq<StoredSession>): int
    decreases |sessions|
  {
    if |sessions| == 0 then 0 else TermCount(sessions[0]) + SumTerms(sessions[1..])
  }

  lemma {:induction false} SumTermsAppend(a: seq<StoredSession>, b: seq<StoredSession>)
    ensures SumTerms(a + b) == SumTerms(a) + SumTerms(b)
    decreases |a|
  {
    if |a| == 0 {
      assert a + b == b;
    } else {
      assert (a + b)[0] == a[0];
      assert (a + b)[1..] == a[1..] + b;
      SumTermsAppend(a[1..], b);
    }
  }

  /** The intended `totalQuestions`: a number, 0 while loading. */
  function TotalQuestions(sessions: seq<StoredSession>, loading: bool): (n: int)
    ensures loading ==> n == 0
    ensures !loading ==> n == SumTerms(sessions)
  {
    if loading then 0 else SumTerms(sessions)
  }

  /** Without a zero count the code as written computes exactly the intended number. */
  lemma {:induction false} AsWrittenAgreesWithoutZeroCounts(sessions: seq<StoredSession>, acc: int)
    requires forall i :: 0 <= i < |sessions| ==> sessions[i].data.questionCount != 0
    ensures FoldAsWritten(sessions, Num(acc)) == Num(acc + SumTerms(sessions))
    decreases |sessions|
  {
    if |sessions| > 0 {
      AsWrittenAgreesWithoutZeroCounts(sessions[1..], acc + sessions[0].data.questionCount);
    }
  }

  /** The statistic is a number exactly when no session has a zero count, and then it is the intended number. */
  lemma TotalQuestionsFinding(sessions: seq<StoredSession>)
    ensures (forall i :: 0 <= i < |sessions| ==> sessions[i].data.questionCount != 0) ==>
      TotalQuestionsAsWritten(sessions, false) == Num(TotalQuestions(sessions, false))
    ensures (exists i :: 0 <= i < |sessions| && sessions[i].data.questionCount == 0) ==>
      TotalQuestionsAsWritten(sessions, false).Text?
  {
    if forall i :: 0 <= i < |sessions| ==> sessions[i].data.questionCount != 0 {
      AsWrittenAgreesWithoutZeroCounts(sessions, 0);
    } else {
      var k :| 0 <= k < |sessions| && sessions[k].data.questionCount == 0;
      ZeroCountGivesText(sessions, Num(0), k);
    }
  }

  function SumLengths(sessions: seq<StoredSession>): nat
    decreases |sessions|
  {
    if |sessions| == 0 then 0 else |sessions[0].data.questions| + SumLengths(sessions[1..])
  }

  /** For rows saved by the App, whose count is the number of questions, the total is the number of questions stored. */
  lemma {:induction false} TotalCountsStoredQuestions(sessions: seq<StoredSession>)
    requires forall i :: 0 <= i < |sessions| ==> sessions[i].data.questionCount == |sessions[i].data.questions|
    ensures TotalQuestions(sessions, false) == SumLengths(sessions)
    decreases |sessions|
  {
    if |sessions| > 0 {
      TotalCountsStoredQuestions(sessions[1..]);
    }
  }

  // ---------------------------------------------------------------------------
  // Sessions, average score, last session

  /** `totalSessions`. */
  function TotalSessions(sessions: seq<StoredSession>, loading: bool): (n: nat)
    ensures loading ==> n == 0
    ensures !loading ==> n == |sessions|
  {
    if loading then 0 else |sessions|
  }

  /** A session saved for the user and read back raises the user's session count by one; other users' counts stay. */
  lemma SaveAddsOneSession(rows: seq<StoredSession>, saved: StoredSession, userId: string)
    ensures saved.data.userId == userId ==>
      TotalSessions(NewestFirst(rows + [saved], userId), false) == TotalSessions(NewestFirst(rows, userId), false) + 1
    ensures saved.data.userId != userId ==>
      TotalSessions(NewestFirst(rows + [saved], userId), false) == TotalSessions(NewestFirst(rows, userId), false)
  {
    NewestFirstAppend(rows, saved, userId);
  }

  /** `session.score || 0`. */
  function ScoreOf(s: StoredSession): int {
    if s.data.score.Some? then s.data.score.value else 0
  }

  function SumScores(sessions: seq<StoredSession>): int
    decreases |sessions|
  {
    if |sessions| == 0 then 0 else ScoreOf(sessions[0]) + SumScores(sessions[1..])
  }

  /** `Math.round(sum / n)`, which is `floor(sum / n + 1/2)`, written over integers. */
  function RoundedMean(sum: int, n: nat): (m: int)
    requires n > 0
    ensures 2 * n * m <= 2 * sum + n < 2 * n * m + 2 * n
  {
    (2 * sum + n) / (2 * n)
  }

  /** `averageScore`: 0 while loading or without sessions, otherwise the rounded mean of the scores. */
  function AverageScore(sessions: seq<StoredSession>, loading: bool): (a: int)
    ensures loading || |sessions| == 0 ==> a == 0
    ensures !loading && |sessions| > 0 ==> a == RoundedMean(SumScores(sessions), |sessions|)
  {
    if loading || |sessions| == 0 then 0 else RoundedMean(SumScores(sessions), |sessions|)
  }

  /** Scores within `[lo, hi]` sum to within `[n * lo, n * hi]`. */
  lemma {:induction false} SumScoresBounds(sessions: seq<StoredSession>, lo: int, hi: int)
    requires forall i :: 0 <= i < |sessions| ==> lo <= ScoreOf(sessions[i]) <= hi
    ensures |sessions| * lo <= SumScores(sessions) <= |sessions| * hi
    decreases |sessions|
  {
    if |sessions| > 0 {
      SumScoresBounds(sessions[1..], lo, hi);
      assert |sessions| * lo == lo + (|sessions| - 1) * lo;
      assert |sessions| * hi == hi + (|sessions| - 1) * hi;
    }
  }

  /** A strict inequality between multiples of a positive factor holds between the multiplicands. */
  lemma MulLtCancel(c: nat, a: int, b: int)
    requires c > 0 && c * a < c * b
    ensures a < b
  {
    assert c * a - c * b == c * (a - b);
  }

  /** A rounded mean of numbers within `[lo, hi]` lies within `[lo, hi]`. */
  lemma RoundedMeanBounds(sum: int, n: nat, lo: int, hi: int)
    requires n > 0 && n * lo <= sum <= n * hi
    ensures lo <= RoundedMean(sum, n) <= hi
  {
    var m := RoundedMean(sum, n);
    var n2 := 2 * n;
    assert n2 * m <= 2 * sum + n < n2 * m + n2;
    assert n2 * lo == 2 * (n * lo) && n2 * hi == 2 * (n * hi);
    assert n2 * (m + 1) == n2 * m + n2 && n2 * (hi + 1) == n2 * hi + n2;
    MulLtCancel(n2, lo, m + 1);
    MulLtCancel(n2, m, hi + 1);
  }

  /** The average lies between the lowest and highest score allowed. */
  lemma AverageScoreBounds(sessions: seq<StoredSession>, lo: int, hi: int)
    requires |sessions| > 0
    requires forall i :: 0 <= i < |sessions| ==> lo <= ScoreOf(sessions[i]) <= hi
    ensures lo <= AverageScore(sessions, false) <= hi
  {
    SumScoresBounds(sessions, lo, hi);
    RoundedMeanBounds(SumScores(sessions), |sessions|, lo, hi);
  }

  /** Every session the App saves scores in [70, 99], so its average does too. */
  lemma AppSessionsAverage(sessions: seq<StoredSession>)
    requires |sessions| > 0
    requires forall i :: 0 <= i < |sessions| ==>
      sessions[i].data.score.Some? && 70 <= sessions[i].data.score.value <= 99
    ensures 70 <= AverageScore(sessions, false) <= 99
  {
    AverageScoreBounds(sessions, 70, 99);
  }

  /**
   * `lastSessionDate` with the date formatting left abstract as `render`:
   * none while loading or without sessions, otherwise the first session's
   * creation time.
   */
  function LastSessionDate(sessions: seq<StoredSession>, loading: bool, render: string -> string): (d: Option<string>)
    ensures d.None? <==> loading || |sessions| == 0
    ensures d.Some? ==> d.value == render(sessions[0].createdAt)
  {
    if loading || |sessions| == 0 then None else Some(render(sessions[0].createdAt))
  }

  /** The first of a user's sessions as loaded is the one inserted last. */
  lemma LastSessionIsNewest(rows: seq<StoredSession>, userId: string)
    requires Serial(rows)
    requires |NewestFirst(rows, userId)| > 0
    ensures forall x :: x in rows && x.data.userId == userId ==> x.id <= NewestFirst(rows, userId)[0].id
  {
    var r := NewestFirst(rows, userId);
    NewestFirstDescending(rows, userId);
    forall x | x in rows && x.data.userId == userId
      ensures x.id <= r[0].id
    {
      var j :| 0 <= j < |r| && r[j] == x;
      assert j == 0 || r[0].id > r[j].id;
    }
  }

  // ---------------------------------------------------------------------------
  // Score tiers and badges

  datatype Tier = Excellent | Good | Fair | NeedsWork {
    function Label(): string {
      match this
      case Excellent => "Excellent"
      case Good => "Good"
      case Fair => "Fair"
      case NeedsWork => "Needs Work"
    }

    function Color(): string {
      match this
      case Excellent => "text-emerald-600 bg-emerald-50"
      case Good => "text-blue-600 bg-blue-50"
      case Fair => "text-amber-600 bg-amber-50"
      case NeedsWork => "text-red-600 bg-red-50"
    }

    function Rank(): nat {
      match this
      case NeedsWork => 0
      case Fair => 1
      case Good => 2
      case Excellent => 3
    }
  }

  /** The tier of `session.score`; a missing score compares as 0. */
  function TierOf(score: Option<int>): (t: Tier)
    ensures var s := score.GetOr(0);
      && (t == Excellent <==> s >= 90)
      && (t == Good <==> 75 <= s < 90)
      && (t == Fair <==> 60 <= s < 75)
      && (t == NeedsWork <==> s < 60)
  {
    var s := score.GetOr(0);
    if s >= 90 then Excellent else if s >= 75 then Good else if s >= 60 then Fair else NeedsWork
  }

  /** A higher score never gets a lower tier. */
  lemma TierMonotone(a: int, b: int)
    requires a <= b
    ensures TierOf(Some(a)).Rank() <= TierOf(Some(b)).Rank()
  {
  }

  /** The App's scores in [70, 99] reach every tier but the lowest. */
  lemma AppScoresTiers(score: int)
    requires 70 <= score <= 99
    ensures TierOf(Some(score)) != NeedsWork
    ensures score < 75 ==> TierOf(Some(score)) == Fair
  {
  }

  /** The session's difficulty badge, written inline on the page. */
  function SessionBadge(difficulty: string): string {
    if difficulty == "Easy" then "text-emerald-600 bg-emerald-50"
    else if difficulty == "Medium" then "text-amber-600 bg-amber-50"
    else if difficulty == "Hard" then "text-red-600 bg-red-50"
    else "text-blue-600 bg-blue-50"
  }

  /** The inline badge is the App's `getDifficultyColor` applied to the stored difficulty. */
  lemma SessionBadgeIsDifficultyColor(difficulty: string)
    ensures SessionBadge(difficulty) == DifficultyColor(Some(JString(difficulty)))
    ensures SessionBadge("Mixed") == OtherColor
  {
  }

  // ---------------------------------------------------------------------------
  // Loading

  /** The effect's guard: load when signed in and not loaded yet. */
  predicate ShouldLoad(isLoggedIn: bool, sessionsLoaded: bool) {
    isLoggedIn && !sessionsLoaded
  }

  /** After a load the guard is off, so the page loads the sessions once per sign-in. */
  lemma LoadsOnce(s: AppState, rows: seq<StoredSession>, user: Result<Option<string>, string>,
                  fetchError: Option<string>)
    requires ShouldLoad(s.isLoggedIn, s.sessionsLoaded)
    ensures var t := SessionsLoaded(s, rows, user, fetchError);
      !ShouldLoad(t.isLoggedIn, t.sessionsLoaded) && !t.sessionsLoading
  {
  }
}
