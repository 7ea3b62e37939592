/** What the engine promises, stated about the function Infer that the
    method CalculateLearningStyle is proved to compute. */
module InferenceProperties {
  import opened Types
  import opened Inference

  function Abs(x: int): nat
  {
    if x < 0 then -x else x
  }

  /** The recursive count agrees with the multiplicity of the tag in the
      multiset of answers. */
  lemma {:induction false} CountIsMultiplicity(answers: seq<Tag>, t: Tag)
    ensures Count(answers, t) == multiset(answers)[t]
  {
    if answers != [] {
      assert answers == [answers[0]] + answers[1..];
      CountIsMultiplicity(answers[1..], t);
    }
  }

  /** Every raw score is the number of answers carrying that category. */
  lemma RawScoresAreOccurrences(answers: seq<Tag>, c: Category)
    ensures Infer(answers).rawScores.Get(c) == multiset(answers)[c]
  {
    CountIsMultiplicity(answers, c);
  }

  /** No answer carries an unscored tag. */
  ghost predicate AllScored(answers: seq<Tag>)
  {
    forall i :: 0 <= i < |answers| ==> !answers[i].Other?
  }

  /** The three counters never exceed the number of answers, and they add up
      to it exactly when no answer carries an unscored tag. */
  lemma TallyConservation(answers: seq<Tag>)
    ensures var s := Infer(answers).rawScores; s.v + s.a + s.k <= |answers|
    ensures var s := Infer(answers).rawScores; s.v + s.a + s.k == |answers| <==> AllScored(answers)
  {
    CountsConservation(answers);
  }

  /** TallyConservation, by induction over the answer list. */
  lemma {:induction false} CountsConservation(answers: seq<Tag>)
    ensures Count(answers, V) + Count(answers, A) + Count(answers, K) <= |answers|
    ensures Count(answers, V) + Count(answers, A) + Count(answers, K) == |answers| <==> AllScored(answers)
  {
    if answers != [] {
      var rest := answers[1..];
      CountsConservation(rest);
      if answers[0].Other? {
        assert !AllScored(answers);
      } else if AllScored(rest) {
        forall i | 0 <= i < |answers| ensures !answers[i].Other? {
          if i > 0 { assert answers[i] == rest[i - 1]; }
        }
      } else {
        var j :| 0 <= j < |rest| && rest[j].Other?;
        assert answers[j + 1] == rest[j];
      }
    }
  }

  /** Answer lists with the same multiset of answers have the same tally. */
  lemma TallyPermutation(xs: seq<Tag>, ys: seq<Tag>)
    requires multiset(xs) == multiset(ys)
    ensures Tally(xs) == Tally(ys)
  {
    CountIsMultiplicity(xs, V); CountIsMultiplicity(ys, V);
    CountIsMultiplicity(xs, A); CountIsMultiplicity(ys, A);
    CountIsMultiplicity(xs, K); CountIsMultiplicity(ys, K);
  }

  /** The result depends on the multiset of answers, not on their order. */
  lemma OrderInvariance(xs: seq<Tag>, ys: seq<Tag>)
    requires multiset(xs) == multiset(ys)
    ensures Infer(xs) == Infer(ys)
  {
    TallyPermutation(xs, ys);
    assert |xs| == |multiset(xs)| == |multiset(ys)| == |ys|;
  }

  /** In particular, swapping two answers changes nothing. */
  lemma SwapInvariance(answers: seq<Tag>, i: nat, j: nat)
    requires i < |answers| && j < |answers|
    ensures Infer(answers[i := answers[j]][j := answers[i]]) == Infer(answers)
  {
    var swapped := answers[i := answers[j]][j := answers[i]];
    if i != j {
      assert multiset(swapped) == multiset(answers) by {
        assert multiset(answers[i := answers[j]]) == multiset(answers) - multiset{answers[i]} + multiset{answers[j]};
      }
    } else {
      assert swapped == answers;
    }
    OrderInvariance(swapped, answers);
  }

  /** RoundPercent rounds to the integer nearest to 100 * count / total:
      no integer q is nearer, and among two equally near ones it takes the
      larger (half rounds up). Distances are scaled by 2 * total. */
  lemma RoundPercentIsNearest(count: nat, total: nat, q: int)
    requires total > 0
    ensures var p := RoundPercent(count, total);
      Abs(200 * count - p * (2 * total)) <= Abs(200 * count - q * (2 * total))
    ensures var p := RoundPercent(count, total);
      q != p && Abs(200 * count - p * (2 * total)) == Abs(200 * count - q * (2 * total)) ==> q < p
  {
    var p := RoundPercent(count, total);
    var d := 2 * total;
    DivBracket(200 * count + total, d);
    StepsApart(p, q, d);
    NearestLinear(200 * count, p * d, q * d, total);
  }

  /** The quotient of n by d, times d, lies within one d below n. */
  lemma DivBracket(n: nat, d: nat)
    requires d > 0
    ensures (n / d) * d <= n < (n / d) * d + d
  {
  }

  /** Multiples of d are equal or at least d apart. */
  lemma StepsApart(p: int, q: int, d: nat)
    ensures q < p ==> q * d <= p * d - d
    ensures q > p ==> q * d >= p * d + d
  {
    if q > p {
      MulMonotone(p + 1, q, d);
    } else if q < p {
      MulMonotone(q, p - 1, d);
    }
  }

  /** The linear core of RoundPercentIsNearest: P is within half a step of
      x (half rounding up), and Q is P or at least a whole step away. */
  lemma NearestLinear(x: int, P: int, Q: int, t: nat)
    requires P <= x + t < P + 2 * t
    requires Q != P ==> Q >= P + 2 * t || Q <= P - 2 * t
    ensures Abs(x - P) <= Abs(x - Q)
    ensures Q != P && Abs(x - P) == Abs(x - Q) ==> Q < P
  {
  }

  /** Each percentage is the rounded share of its category's count, lies in
      [0, 100], and is 0 when there are no answers. */
  lemma PercentageBounds(answers: seq<Tag>, c: Category)
    ensures var r := Infer(answers);
      r.percentages.Get(c) == RoundPercent(multiset(answers)[c], |answers|)
    ensures Infer(answers).percentages.Get(c) <= 100
    ensures answers == [] ==> Infer(answers).percentages.Get(c) == 0
  {
    RawScoresAreOccurrences(answers, c);
  }

  /** The dominant value is a category exactly when that category's count is
      strictly greater than both other counts. */
  lemma DominantIsStrictLeader(answers: seq<Tag>, c: Category)
    ensures var s := Infer(answers).rawScores;
      Infer(answers).dominant == Single(c) <==> forall e: Category :: e != c ==> s.Get(e) < s.Get(c)
  {
    StrictLeaderScores(Tally(answers), c);
  }

  /** DominantIsStrictLeader for any score record, by cases on the winners. */
  lemma StrictLeaderScores(s: Scores, c: Category)
    ensures DominantOf(s) == Single(c) <==> forall e: Category :: e != c ==> s.Get(e) < s.Get(c)
  {
    var m := MaxScore(s);
    var w := Winners(s);
    assert s.Get(V) == s.v && s.Get(A) == s.a && s.Get(K) == s.k;
    if s.v == m && s.a != m && s.k != m {
      assert w == [V];
    } else if s.v != m && s.a == m && s.k != m {
      assert w == [A];
    } else if s.v != m && s.a != m && s.k == m {
      assert w == [K];
    } else {
      assert |w| != 1;
    }
  }

  /** The dominant value is Multimodal exactly when two different categories
      share the maximum count. */
  lemma MultimodalOnTie(answers: seq<Tag>)
    ensures var s := Infer(answers).rawScores; var m := MaxScore(s);
      Infer(answers).dominant == Multimodal <==>
        exists c: Category, e: Category :: c != e && s.Get(c) == m && s.Get(e) == m
  {
    var s := Infer(answers).rawScores;
    var m := MaxScore(s);
    var w := Winners(s);
    if |w| != 1 {
      assert w[0] != w[1];
      assert s.Get(w[0]) == m && s.Get(w[1]) == m;
    } else {
      forall c: Category, e: Category | s.Get(c) == m && s.Get(e) == m ensures c == e {
        assert c in w && e in w;
      }
    }
  }

  /** Without answers every count and percentage is 0, all three categories
      win, and the result is Multimodal with the Multimodal text. */
  lemma EmptyAnswers()
    ensures Infer([]) == InferenceResult(Scores(0, 0, 0), Scores(0, 0, 0), Multimodal, MultimodalText)
  {
    assert Winners(Scores(0, 0, 0)) == [V, A, K];
  }

  /** The description is the text registered for the dominant value, and the
      four texts differ, so the text tells the dominant value. */
  lemma DescriptionFollowsDominant(answers: seq<Tag>, d: Dominant)
    ensures Infer(answers).description == Description(Infer(answers).dominant)
    ensures Infer(answers).description == Description(d) <==> Infer(answers).dominant == d
  {
    var d0 := Infer(answers).dominant;
    if d != d0 {
      DescriptionsDiffer(d, d0);
    }
  }

  /** The four descriptions are pairwise different. */
  lemma DescriptionsDiffer(d: Dominant, e: Dominant)
    requires d != e
    ensures Description(d) != Description(e)
  {
    assert |VisualText| == 175 && |AuditoryText| == 183 && |KinestheticText| == 184 && |MultimodalText| == 166;
  }

  /** Two visual answers, one auditory and one kinesthetic: V leads with
      50 percent. */
  lemma ScenarioVisualLeads()
    ensures Infer([V, V, A, K]) ==
      InferenceResult(Scores(2, 1, 1), Scores(50, 25, 25), Single(V), VisualText)
  {
    assert [V, V, A, K][1..] == [V, A, K];
    assert [V, A, K][1..] == [A, K];
    assert [A, K][1..] == [K];
  }

  /** One visual and one auditory answer tie: the result is Multimodal. */
  lemma ScenarioTie()
    ensures Infer([V, A]) ==
      InferenceResult(Scores(1, 1, 0), Scores(50, 50, 0), Multimodal, MultimodalText)
  {
    assert [V, A][1..] == [A];
    assert Winners(Scores(1, 1, 0)) == [V, A];
  }

  /** Answers tagged "R" (the fallback question bank's fourth option) are not
      counted but still make up the total: three of them and one visual
      answer give V alone, at 25 percent. */
  lemma ScenarioUnscoredTags()
    ensures Infer([Other("R"), Other("R"), Other("R"), V]) ==
      InferenceResult(Scores(1, 0, 0), Scores(25, 0, 0), Single(V), VisualText)
  {
    var r := Other("R");
    assert [r, r, r, V][1..] == [r, r, V];
    assert [r, r, V][1..] == [r, V];
    assert [r, V][1..] == [V];
  }
}
