/**
 * The practice form (src/components/PracticePage.jsx): the question-count
 * stepper, the per-difficulty counters, the type checkboxes, when the
 * generate button is enabled, the count on its label and the difficulty
 * summary line.  Every update is a function from the old state to the new.
 */
module Practice {
  import opened Js

  // ---------------------------------------------------------------------------
  // Question count

  const MinCount: int := 1
  const MaxCount: int := 20

  /** `Math.max(1, questionCount - 1)`. */
  function DecrementCount(c: int): (r: int)
    ensures r >= MinCount
    ensures c > MinCount ==> r == c - 1
    ensures c <= MinCount ==> r == MinCount
  {
    Max(MinCount, c - 1)
  }

  /** `Math.min(20, questionCount + 1)`. */
  function IncrementCount(c: int): (r: int)
    ensures r <= MaxCount
    ensures c < MaxCount ==> r == c + 1
    ensures c >= MaxCount ==> r == MaxCount
  {
    Min(MaxCount, c + 1)
  }

  /** A count that starts in [1, 20] stays there, and a step away and back inside the range returns. */
  lemma CountStaysInRange(c: int)
    requires MinCount <= c <= MaxCount
    ensures MinCount <= DecrementCount(c) <= MaxCount
    ensures MinCount <= IncrementCount(c) <= MaxCount
    ensures c < MaxCount ==> DecrementCount(IncrementCount(c)) == c
    ensures c > MinCount ==> IncrementCount(DecrementCount(c)) == c
  {
  }

  // ---------------------------------------------------------------------------
  // Question types

  datatype TypeKey = Technical | Behavioral | DomainSpecific {
    /** The key of the preference object, which is also the type name sent to the server. */
    function Name(): string {
      match this
      case Technical => "technical"
      case Behavioral => "behavioral"
      case DomainSpecific => "domainSpecific"
    }
  }

  /** `selectedPreferences`, its keys in declaration order. */
  datatype Preferences = Preferences(technical: bool, behavioral: bool, domainSpecific: bool) {
    function Get(k: TypeKey): bool {
      match k
      case Technical => technical
      case Behavioral => behavioral
      case DomainSpecific => domainSpecific
    }

    /** `Object.values(selectedPreferences).some(Boolean)`. */
    predicate AnySelected() {
      technical || behavioral || domainSpecific
    }

    /** `{ ...prev, [k]: !prev[k] }`. */
    function Toggled(k: TypeKey): (r: Preferences)
      ensures r.Get(k) == !Get(k)
      ensures forall k' :: k' != k ==> r.Get(k') == Get(k')
    {
      match k
      case Technical => this.(technical := !technical)
      case Behavioral => this.(behavioral := !behavioral)
      case DomainSpecific => this.(domainSpecific := !domainSpecific)
    }
  }

  /** Two flips of the same checkbox restore the preferences. */
  lemma ToggleTwice(p: Preferences, k: TypeKey)
    ensures p.Toggled(k).Toggled(k) == p
  {
  }

  /** Some type is selected exactly when at least one key is true. */
  lemma AnySelectedMeansSomeKey(p: Preferences)
    ensures p.AnySelected() <==> exists k: TypeKey :: p.Get(k)
  {
    if p.technical { assert p.Get(Technical); }
    if p.behavioral { assert p.Get(Behavioral); }
    if p.domainSpecific { assert p.Get(DomainSpecific); }
  }

  // ---------------------------------------------------------------------------
  // Difficulty counters

  datatype Level = Easy | Medium | Hard {
    function Label(): string {
      match this
      case Easy => "Easy"
      case Medium => "Medium"
      case Hard => "Hard"
    }
  }

  /** `difficultyPreferences`. */
  datatype DifficultyCounts = DifficultyCounts(easy: int, medium: int, hard: int) {
    function Get(k: Level): int {
      match k
      case Easy => easy
      case Medium => medium
      case Hard => hard
    }

    function With(k: Level, v: int): (r: DifficultyCounts)
      ensures r.Get(k) == v
      ensures forall k' :: k' != k ==> r.Get(k') == Get(k')
    {
      match k
      case Easy => this.(easy := v)
      case Medium => this.(medium := v)
      case Hard => this.(hard := v)
    }

    /** `easy + medium + hard`. */
    function Total(): int {
      easy + medium + hard
    }
  }

  /** `{ ...prev, [k]: Math.max(0, prev[k] - 1) }`: floors at 0 and touches only `k`. */
  function DecrementLevel(d: DifficultyCounts, k: Level): (r: DifficultyCounts)
    ensures r.Get(k) == Max(0, d.Get(k) - 1)
    ensures forall k' :: k' != k ==> r.Get(k') == d.Get(k')
  {
    d.With(k, Max(0, d.Get(k) - 1))
  }

  /** `{ ...prev, [k]: prev[k] + 1 }`: no upper bound, touches only `k`. */
  function IncrementLevel(d: DifficultyCounts, k: Level): (r: DifficultyCounts)
    ensures r.Get(k) == d.Get(k) + 1
    ensures forall k' :: k' != k ==> r.Get(k') == d.Get(k')
  {
    d.With(k, d.Get(k) + 1)
  }

  /** "Reset to default" (and the logout reset in App.jsx). */
  const ZeroCounts: DifficultyCounts := DifficultyCounts(0, 0, 0)

  predicate NonNegative(d: DifficultyCounts) {
    d.easy >= 0 && d.medium >= 0 && d.hard >= 0
  }

  /**
   * The counters never go negative; an increment adds one to the total and
   * is undone by a decrement, and a decrement lowers the total by one unless
   * the counter was already 0.
   */
  lemma LevelSteps(d: DifficultyCounts, k: Level)
    requires NonNegative(d)
    ensures NonNegative(DecrementLevel(d, k)) && NonNegative(IncrementLevel(d, k))
    ensures IncrementLevel(d, k).Total() == d.Total() + 1
    ensures DecrementLevel(IncrementLevel(d, k), k) == d
    ensures DecrementLevel(d, k).Total() == if d.Get(k) > 0 then d.Total() - 1 else d.Total()
  {
    match k
    case Easy =>
    case Medium =>
    case Hard =>
  }

  /** The reset gives zero counters, whose total is 0, so the plain count applies again. */
  lemma ResetClearsTotal(questionCount: int)
    ensures ZeroCounts.Total() == 0 && NonNegative(ZeroCounts)
    ensures LabelCount(ZeroCounts, questionCount) == questionCount
  {
  }

  // ---------------------------------------------------------------------------
  // The generate button

  /** `disabled` is the negation of: a type selected, not processing, and no full-screen loader. */
  predicate GenerateEnabled(p: Preferences, isProcessing: bool, showFullScreenLoader: bool) {
    p.AnySelected() && !isProcessing && !showFullScreenLoader
  }

  /** The button is enabled exactly when some type is ticked and no generation is under way. */
  lemma GenerateEnabledMeansTypeTicked(p: Preferences, isProcessing: bool, showFullScreenLoader: bool)
    ensures GenerateEnabled(p, isProcessing, showFullScreenLoader) <==>
      (exists k: TypeKey :: p.Get(k)) && !isProcessing && !showFullScreenLoader
  {
    AnySelectedMeansSomeKey(p);
  }

  /** `Generate N Questions`: the difficulty total when positive, otherwise the stepper's count. */
  function LabelCount(d: DifficultyCounts, questionCount: int): (n: int)
    ensures d.Total() > 0 ==> n == d.Total()
    ensures d.Total() <= 0 ==> n == questionCount
  {
    if d.Total() > 0 then d.Total() else questionCount
  }

  /** With non-negative counters and a count in the stepper's range, the label is a positive number. */
  lemma LabelCountPositive(d: DifficultyCounts, questionCount: int)
    requires NonNegative(d) && MinCount <= questionCount <= MaxCount
    ensures LabelCount(d, questionCount) >= 1
    ensures d.Total() == 0 ==> LabelCount(d, questionCount) <= MaxCount
  {
  }

  // ---------------------------------------------------------------------------
  // The summary line under the counters

  const Bullet: string := " \U{2022} "

  /** `N Easy`, `N Medium` or `N Hard`. */
  function LevelPart(d: DifficultyCounts, k: Level): string {
    IntToString(d.Get(k)) + " " + k.Label()
  }

  /** A JSX `{cond && text}`: the text when the condition holds, nothing otherwise. */
  function When(cond: bool, text: string): string {
    if cond then text else ""
  }

  /**
   * The line as written: each part appears when its counter is positive, and
   * a bullet only between Easy and Medium or between Medium and Hard, each
   * when both neighbours are positive.
   */
  function SummaryAsWritten(d: DifficultyCounts): string {
    When(d.easy > 0, LevelPart(d, Easy))
    + When(d.easy > 0 && d.medium > 0, Bullet)
    + When(d.medium > 0, LevelPart(d, Medium))
    + When(d.medium > 0 && d.hard > 0, Bullet)
    + When(d.hard > 0, LevelPart(d, Hard))
  }

  /** The positive levels' parts in Easy, Medium, Hard order. */
  function ShownParts(d: DifficultyCounts): (parts: seq<string>)
    ensures |parts| <= 3
  {
    (if d.easy > 0 then [LevelPart(d, Easy)] else [])
    + (if d.medium > 0 then [LevelPart(d, Medium)] else [])
    + (if d.hard > 0 then [LevelPart(d, Hard)] else [])
  }

  /** The line as intended: the shown parts with a bullet between every two of them. */
  function Summary(d: DifficultyCounts): string {
    Join(ShownParts(d), Bullet)
  }

  /** Easy and Hard without Medium run together: `1 Easy2 Hard`. */
  lemma SummaryAsWrittenDropsBullet()
    ensures SummaryAsWritten(DifficultyCounts(1, 0, 2)) == "1 Easy2 Hard"
    ensures Summary(DifficultyCounts(1, 0, 2)) == "1 Easy" + Bullet + "2 Hard"
  {
    var d := DifficultyCounts(1, 0, 2);
    assert DigitChar(1) == '1' && DigitChar(2) == '2';
    assert LevelPart(d, Easy) == "1 Easy";
    assert LevelPart(d, Hard) == "2 Hard";
    assert ShownParts(d) == ["1 Easy", "2 Hard"];
  }

  function Keep(cond: bool, part: string): seq<string> {
    if cond then [part] else []
  }

  /** The summary's shape over arbitrary parts: the bullets agree with a join unless the middle part is missing. */
  lemma SummaryShape(a: bool, b: bool, c: bool, e: string, m: string, h: string)
    ensures !(a && !b && c) ==>
      When(a, e) + When(a && b, Bullet) + When(b, m) + When(b && c, Bullet) + When(c, h)
        == Join(Keep(a, e) + Keep(b, m) + Keep(c, h), Bullet)
  {
    if a && b && c {
      assert Keep(a, e) + Keep(b, m) + Keep(c, h) == [e, m, h];
      assert Join([e, m, h], Bullet) == e + Bullet + (m + Bullet + h);
    } else if a && b {
      assert Keep(a, e) + Keep(b, m) + Keep(c, h) == [e, m];
    } else if b && c {
      assert Keep(a, e) + Keep(b, m) + Keep(c, h) == [m, h];
    } else if a && !c {
      assert Keep(a, e) + Keep(b, m) + Keep(c, h) == [e];
    } else if b {
      assert Keep(a, e) + Keep(b, m) + Keep(c, h) == [m];
    } else if c && !a {
      assert Keep(a, e) + Keep(b, m) + Keep(c, h) == [h];
    } else if !a && !c {
      assert Keep(a, e) + Keep(b, m) + Keep(c, h) == [];
    }
  }

  /** The two lines agree in every case but that one, and the intended one separates every two parts. */
  lemma SummaryAgreesUnlessMediumSkipped(d: DifficultyCounts)
    ensures !(d.easy > 0 && d.medium <= 0 && d.hard > 0) ==> SummaryAsWritten(d) == Summary(d)
    ensures d.easy > 0 && d.medium <= 0 && d.hard > 0 ==>
      Summary(d) == LevelPart(d, Easy) + Bullet + LevelPart(d, Hard)
  {
    var e, m, h := LevelPart(d, Easy), LevelPart(d, Medium), LevelPart(d, Hard);
    assert ShownParts(d) == Keep(d.easy > 0, e) + Keep(d.medium > 0, m) + Keep(d.hard > 0, h);
    SummaryShape(d.easy > 0, d.medium > 0, d.hard > 0, e, m, h);
    if d.easy > 0 && d.medium <= 0 && d.hard > 0 {
      assert ShownParts(d) == [e, h];
    }
  }
}
