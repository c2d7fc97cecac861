/**
 * The testimonial panel of the login page (both copies of LoginPage.jsx
 * carry the same logic): the two testimonial pools, the Fisher-Yates
 * shuffle of a copy, the four testimonials shown for the current mode, the
 * rotation index and the author's initials.
 */
module Login {
  import opened Js

  datatype Testimonial = Testimonial(name: string, role: string, company: string, text: string)

  const SignInPool: seq<Testimonial> := [
    Testimonial("Sarah Johnson", "Software Engineer", "Google",
                "InterviewAI helped me land my dream job at Google. The personalized questions were spot-on and the AI feedback was incredibly valuable."),
    Testimonial("Michael Chen", "Product Manager", "Microsoft",
                "The practice sessions were so realistic. I felt confident going into my actual interviews and the progress tracking kept me motivated."),
    Testimonial("Emily Rodriguez", "Data Scientist", "Amazon",
                "Perfect for technical interviews. The resume-based questions were exactly what I needed and the difficulty levels were spot on."),
    Testimonial("David Kim", "Frontend Developer", "Meta",
                "The AI analysis of my answers was eye-opening. I improved significantly with each session and landed my dream role."),
    Testimonial("Alex Thompson", "DevOps Engineer", "Netflix",
                "Returning to InterviewAI after landing my job - the platform keeps evolving and the new features are amazing!"),
    Testimonial("Lisa Wang", "UX Designer", "Apple",
                "I love how InterviewAI remembers my progress. It's like having a personal interview coach that knows my strengths.")
  ]

  const SignUpPool: seq<Testimonial> := [
    Testimonial("James Wilson", "Full Stack Developer", "Spotify",
                "Just started using InterviewAI and I'm blown away by how quickly it adapts to my experience level and job preferences."),
    Testimonial("Maria Garcia", "Machine Learning Engineer", "Tesla",
                "The sign-up process was seamless and within minutes I was practicing with questions tailored to my ML background."),
    Testimonial("Ryan Park", "Mobile Developer", "Uber",
                "New to InterviewAI and already seeing improvement. The AI feedback is spot-on and the progress tracking is motivating."),
    Testimonial("Sophie Turner", "Product Designer", "Airbnb",
                "Started my interview prep journey here and the personalized approach is exactly what I needed to build confidence."),
    Testimonial("Carlos Mendez", "Backend Engineer", "Stripe",
                "Fresh perspective with InterviewAI - the platform understands modern tech interviews and adapts to current trends."),
    Testimonial("Nina Patel", "Data Engineer", "LinkedIn",
                "New user here and already impressed by the depth of questions and the intelligent difficulty progression.")
  ]

  /** `baseTestimonials[isSignUp ? 'signUp' : 'signIn']`. */
  function Pool(isSignUp: bool): (pool: seq<Testimonial>)
    ensures isSignUp ==> pool == SignUpPool
    ensures !isSignUp ==> pool == SignInPool
    ensures |pool| == 6
  {
    if isSignUp then SignUpPool else SignInPool
  }

  // ---------------------------------------------------------------------------
  // shuffleArray

  /** Values of `Math.random()`, one per loop iteration. */
  predicate UnitDraws(draws: seq<real>) {
    forall k :: 0 <= k < |draws| ==> 0.0 <= draws[k] < 1.0
  }

  /** `[s[i], s[j]] = [s[j], s[i]]`. */
  function Swap<T>(s: seq<T>, i: nat, j: nat): (r: seq<T>)
    requires i < |s| && j < |s|
    ensures |r| == |s| && r[i] == s[j] && r[j] == s[i]
    ensures forall k :: 0 <= k < |s| && k != i && k != j ==> r[k] == s[k]
  {
    s[i := s[j]][j := s[i]]
  }

  /** A swap only reorders. */
  lemma SwapPermutes<T>(s: seq<T>, i: nat, j: nat)
    requires i < |s| && j < |s|
    ensures multiset(Swap(s, i, j)) == multiset(s)
  {
    var t := s[i := s[j]];
    assert multiset(t) == multiset(s) - multiset{s[i]} + multiset{s[j]};
    assert multiset(t[j := s[i]]) == multiset(t) - multiset{t[j]} + multiset{s[i]};
  }

  /** The swap index of the iteration at `i`: `Math.floor(Math.random() * (i + 1))`, always in `[0, i]`. */
  function SwapIndex(r: real, i: nat): (j: nat)
    requires 0.0 <= r < 1.0
    ensures j <= i
  {
    RandomBelow(r, i + 1)
  }

  /** The iterations `i`, `i - 1`, ..., `1` of the loop, the first one using `draws[0]`. */
  function Shuffled<T>(s: seq<T>, i: nat, draws: seq<real>): seq<T>
    requires i < |s| && i <= |draws| && UnitDraws(draws)
    decreases i
  {
    if i == 0 then s else Shuffled(Swap(s, i, SwapIndex(draws[0], i)), i - 1, draws[1..])
  }

  /** `shuffleArray(array)` on the values: no iteration for fewer than two elements. */
  function ShuffleSpec<T>(s: seq<T>, draws: seq<real>): seq<T>
    requires |s| <= |draws| + 1 && UnitDraws(draws)
  {
    if |s| == 0 then s else Shuffled(s, |s| - 1, draws)
  }

  /** The loop only reorders: the result is a permutation of its input. */
  lemma {:induction false} ShuffledPermutes<T>(s: seq<T>, i: nat, draws: seq<real>)
    requires i < |s| && i <= |draws| && UnitDraws(draws)
    ensures |Shuffled(s, i, draws)| == |s|
    ensures multiset(Shuffled(s, i, draws)) == multiset(s)
    decreases i
  {
    if i > 0 {
      var j := SwapIndex(draws[0], i);
      SwapPermutes(s, i, j);
      ShuffledPermutes(Swap(s, i, j), i - 1, draws[1..]);
    }
  }

  /** Positions above `i` are settled: the remaining iterations never touch them. */
  lemma {:induction false} ShuffledKeepsTail<T>(s: seq<T>, i: nat, draws: seq<real>)
    requires i < |s| && i <= |draws| && UnitDraws(draws)
    ensures |Shuffled(s, i, draws)| == |s|
    ensures Shuffled(s, i, draws)[i + 1..] == s[i + 1..]
    decreases i
  {
    ShuffledPermutes(s, i, draws);
    if i > 0 {
      var t := Swap(s, i, SwapIndex(draws[0], i));
      ShuffledKeepsTail(t, i - 1, draws[1..]);
      assert t[i + 1..] == s[i + 1..];
      assert Shuffled(s, i, draws)[i + 1..] == Shuffled(t, i - 1, draws[1..])[i..][1..];
    }
  }

  /** One iteration of the loop, with the draws still unused starting at `used`. */
  lemma ShuffledStep<T>(s: seq<T>, i: nat, draws: seq<real>, used: nat)
    requires 0 < i < |s| && used + i <= |draws| && UnitDraws(draws)
    ensures UnitDraws(draws[used..]) && UnitDraws(draws[used + 1..])
    ensures Shuffled(s, i, draws[used..])
         == Shuffled(Swap(s, i, SwapIndex(draws[used], i)), i - 1, draws[used + 1..])
  {
    assert draws[used..][0] == draws[used];
    assert draws[used..][1..] == draws[used + 1..];
  }

  /**
   * `shuffleArray`: swaps in place on a fresh copy, `i` running from the
   * last index down to 1 with `j` in `[0, i]`; the caller's array is left
   * as it was.
   */
  method ShuffleArray<T>(a: array<T>, draws: seq<real>) returns (shuffled: array<T>)
    requires a.Length <= |draws| + 1 && UnitDraws(draws)
    ensures fresh(shuffled)
    ensures shuffled[..] == ShuffleSpec(old(a[..]), draws)
    ensures a[..] == old(a[..])
  {
    var n := a.Length;
    shuffled := new T[n](k requires 0 <= k < n reads a => a[k]);
    assert shuffled[..] == a[..];
    ghost var spec := ShuffleSpec(a[..], draws);
    var i: int := n - 1;
    var used := 0;
    assert draws[0..] == draws;
    while i > 0
      invariant -1 <= i < n == shuffled.Length
      invariant n == 0 <==> i == -1
      invariant used == n - 1 - i
      invariant UnitDraws(draws[used..])
      invariant i >= 0 ==> Shuffled(shuffled[..], i, draws[used..]) == spec
      decreases i
    {
      var j := SwapIndex(draws[used], i);
      ShuffledStep(shuffled[..], i, draws, used);
      ghost var before := shuffled[..];
      shuffled[i], shuffled[j] := shuffled[j], shuffled[i];
      assert shuffled[..] == Swap(before, i, j);
      i := i - 1;
      used := used + 1;
    }
  }

  /** The first four of a shuffle of six are four of the pool's elements. */
  lemma FirstFourOfShuffle<T>(pool: seq<T>, draws: seq<real>)
    requires |pool| == 6 && |draws| >= 5 && UnitDraws(draws)
    ensures |SliceTo(ShuffleSpec(pool, draws), 4)| == 4
    ensures multiset(SliceTo(ShuffleSpec(pool, draws), 4)) <= multiset(pool)
  {
    ShuffledPermutes(pool, |pool| - 1, draws);
    var all := ShuffleSpec(pool, draws);
    var shown := SliceTo(all, 4);
    assert all == shown + all[4..];
    assert multiset(all) == multiset(shown) + multiset(all[4..]);
  }

  /** `shuffleArray(baseTestimonials[mode]).slice(0, 4)`. */
  method GenerateTestimonials(isSignUp: bool, draws: seq<real>) returns (shown: seq<Testimonial>)
    requires |draws| >= 5 && UnitDraws(draws)
    ensures shown == SliceTo(ShuffleSpec(Pool(isSignUp), draws), 4)
    ensures |shown| == 4
    ensures multiset(shown) <= multiset(Pool(isSignUp))
  {
    var pool := Pool(isSignUp);
    var base := new Testimonial[|pool|](k requires 0 <= k < |pool| => pool[k]);
    assert base[..] == pool;
    var shuffled := ShuffleArray(base, draws);
    shown := SliceTo(shuffled[..], 4);
    FirstFourOfShuffle(pool, draws);
  }

  // ---------------------------------------------------------------------------
  // Rotation

  /** `(prev + 1) % testimonials.length`, every four seconds. */
  function NextTestimonial(prev: nat, len: nat): (next: nat)
    requires len > 0
    ensures next < len
    ensures prev < len - 1 ==> next == prev + 1
    ensures prev == len - 1 ==> next == 0
  {
    (prev + 1) % len
  }

  /** The index after `ticks` rotations from the reset value 0. */
  function Rotated(ticks: nat, len: nat): (index: nat)
    requires len > 0
    ensures index < len
    decreases ticks
  {
    if ticks == 0 then 0 else NextTestimonial(Rotated(ticks - 1, len), len)
  }

  /** After the mode resets it to 0, the first `len` rotations visit every index in order. */
  lemma {:induction false} RotationVisitsInOrder(ticks: nat, len: nat)
    requires ticks < len
    ensures Rotated(ticks, len) == ticks
    decreases ticks
  {
    if ticks > 0 {
      RotationVisitsInOrder(ticks - 1, len);
    }
  }

  /** The rotation wraps around: `len` more ticks come back to the same testimonial. */
  lemma {:induction false} RotationPeriodic(ticks: nat, len: nat)
    requires len > 0
    ensures Rotated(ticks + len, len) == Rotated(ticks, len)
    decreases ticks
  {
    if ticks == 0 {
      RotationVisitsInOrder(len - 1, len);
    } else {
      RotationPeriodic(ticks - 1, len);
      assert ticks + len - 1 == (ticks - 1) + len;
    }
  }

  // ---------------------------------------------------------------------------
  // Initials

  /** `n[0]`, which `join('')` renders as nothing for an empty part. */
  function FirstChar(part: string): (c: string)
    ensures part == "" ==> c == ""
    ensures part != "" ==> c == [part[0]]
  {
    if part == "" then "" else [part[0]]
  }

  /** `parts.map(n => n[0]).join('')`. */
  function FirstChars(parts: seq<string>): string
    decreases |parts|
  {
    if |parts| == 0 then "" else FirstChar(parts[0]) + FirstChars(parts[1..])
  }

  /** `name.split(' ').map(n => n[0]).join('')`. */
  function Initials(name: string): string {
    FirstChars(Split(name, ' '))
  }

  /** The initials of a name are its first word's first letter followed by the initials of the rest. */
  lemma InitialsCons(word: string, rest: string)
    requires forall k :: 0 <= k < |word| ==> word[k] != ' '
    ensures Initials(word + [' '] + rest) == FirstChar(word) + Initials(rest)
  {
    SplitAt(word, ' ', rest);
    assert Split(word + [' '] + rest, ' ')[1..] == Split(rest, ' ');
  }

  /** A single word's initial is its first letter. */
  lemma InitialsOneWord(word: string)
    requires forall k :: 0 <= k < |word| ==> word[k] != ' '
    ensures Initials(word) == FirstChar(word)
  {
    assert IndexOf(word, ' ') < 0;
    assert Split(word, ' ') == [word];
    assert [word][1..] == [];
    assert FirstChars([word]) == FirstChar(word) + "";
  }

  /** A first and last name give two letters, as for every testimonial author. */
  lemma InitialsOfFullName(first: string, last: string)
    requires first != "" && last != ""
    requires forall k :: 0 <= k < |first| ==> first[k] != ' '
    requires forall k :: 0 <= k < |last| ==> last[k] != ' '
    ensures Initials(first + " " + last) == [first[0], last[0]]
  {
    InitialsCons(first, last);
    InitialsOneWord(last);
  }
}
