/** The learning-style inference engine: one forward pass that tallies the
    answers per category, rounds a percentage per category and names the
    dominant category, or Multimodal on a tie. */
module Inference {
  import opened Types

  const VisualText: string := "Anda adalah pembelajar Visual. Anda memahami informasi lebih baik melalui gambar, diagram, dan grafik. Tips: Gunakan mind map, highlighter warna-warni, dan video pembelajaran."
  const AuditoryText: string := "Anda adalah pembelajar Auditory. Anda lebih mudah menyerap informasi melalui pendengaran dan diskusi. Tips: Dengarkan podcast, diskusi kelompok, dan rekam materi untuk didengar ulang."
  const KinestheticText: string := "Anda adalah pembelajar Kinesthetic. Anda belajar paling efektif melalui praktik langsung dan aktivitas fisik. Tips: Buat proyek, lakukan eksperimen, dan jangan duduk diam saat belajar."
  const MultimodalText: string := "Anda memiliki gaya belajar Multimodal (Campuran). Anda fleksibel menggunakan berbagai metode belajar. Tips: Kombinasikan berbagai metode sesuai topik yang dipelajari."

  /** The description table, keyed by the dominant value. */
  function Description(d: Dominant): (text: string)
  {
    match d
    case Single(c) => if c == V then VisualText else if c == A then AuditoryText else KinestheticText
    case Multimodal => MultimodalText
  }

  /** The number of answers equal to tag t. */
  function Count(answers: seq<Tag>, t: Tag): (n: nat)
    ensures n <= |answers|
  {
    if answers == [] then 0
    else (if answers[0] == t then 1 else 0) + Count(answers[1..], t)
  }

  /** Appending one answer adds one to the count of its own tag and nothing
      to any other count. */
  lemma {:induction false} CountSnoc(answers: seq<Tag>, x: Tag, t: Tag)
    ensures Count(answers + [x], t) == Count(answers, t) + (if x == t then 1 else 0)
  {
    if answers != [] {
      assert (answers + [x])[1..] == answers[1..] + [x];
      CountSnoc(answers[1..], x, t);
    }
  }

  /** The score object the tally loop leaves behind: per category, how many
      answers carry that category. */
  function Tally(answers: seq<Tag>): (s: Scores)
    ensures forall c: Category :: s.Get(c) <= |answers|
  {
    Scores(Count(answers, V), Count(answers, A), Count(answers, K))
  }

  /** Math.round(count / total * 100) over exact integers: round half up of
      100 * count / total, and 0 when there are no answers. */
  function RoundPercent(count: nat, total: nat): (p: nat)
    ensures total == 0 ==> p == 0
    ensures count <= total ==> p <= 100
    ensures total > 0 && count == total ==> p == 100
    ensures count == 0 ==> p == 0
  {
    if total > 0 then
      var p := (200 * count + total) / (2 * total);
      RoundPercentBounds(count, total, p);
      p
    else 0
  }

  /** The arithmetic behind RoundPercent's bounds: q is the quotient of
      200 * count + total by 2 * total. */
  lemma RoundPercentBounds(count: nat, total: nat, q: nat)
    requires total > 0 && q == (200 * count + total) / (2 * total)
    ensures count <= total ==> q <= 100
    ensures count == total ==> q == 100
    ensures count == 0 ==> q == 0
  {
    var d := 2 * total;
    var n := 200 * count + total;
    assert q * d <= n < q * d + d;
    if q > 100 {
      MulMonotone(101, q, d);
    }
    if count == total && q < 100 {
      MulMonotone(q + 1, 100, d);
    }
    if count == 0 && q > 0 {
      MulMonotone(1, q, d);
    }
  }

  /** Multiplying by a natural number keeps the order. */
  lemma MulMonotone(a: int, b: int, d: nat)
    requires a <= b
    ensures a * d <= b * d
  {
  }

  /** The percentage record: each category's count rounded over the total. */
  function Percentages(s: Scores, total: nat): (p: Scores)
    ensures total == 0 ==> p == Scores(0, 0, 0)
    ensures forall c: Category :: s.Get(c) <= total ==> p.Get(c) <= 100
  {
    Scores(RoundPercent(s.v, total), RoundPercent(s.a, total), RoundPercent(s.k, total))
  }

  /** Math.max over the three counts. */
  function MaxScore(s: Scores): (m: nat)
    ensures forall c: Category :: s.Get(c) <= m
    ensures s.Get(V) == m || s.Get(A) == m || s.Get(K) == m
  {
    if s.v >= s.a && s.v >= s.k then s.v
    else if s.a >= s.k then s.a
    else s.k
  }

  /** The categories whose count reaches the maximum, in key order. */
  function Winners(s: Scores): (w: seq<Category>)
    ensures 1 <= |w| <= 3
    ensures forall c: Category :: c in w <==> s.Get(c) == MaxScore(s)
    ensures forall i, j :: 0 <= i < j < |w| ==> w[i] != w[j]
  {
    var m := MaxScore(s);
    (if s.v == m then [V] else []) + (if s.a == m then [A] else []) + (if s.k == m then [K] else [])
  }

  /** The single winner, or Multimodal when several categories share the
      maximum. */
  function DominantOf(s: Scores): (d: Dominant)
    ensures d.Single? ==> forall e: Category :: e != d.style ==> s.Get(e) < s.Get(d.style)
  {
    var w := Winners(s);
    if |w| == 1 then Single(w[0]) else Multimodal
  }

  /** The result for a given score record and answer count. */
  function Classify(s: Scores, total: nat): (r: InferenceResult)
  {
    InferenceResult(s, Percentages(s, total), DominantOf(s), Description(DominantOf(s)))
  }

  /** What the engine computes from an answer list, as a function. */
  function Infer(answers: seq<Tag>): (r: InferenceResult)
  {
    Classify(Tally(answers), |answers|)
  }

  /** The engine: tally the answers in order, skipping a tag with no counter,
      then derive percentages, winners, the dominant value and its text. */
  method CalculateLearningStyle(answers: seq<Answer>) returns (result: InferenceResult)
    ensures result == Infer(answers)
  {
    var scores := Scores(0, 0, 0);
    var totalQuestions := |answers|;

    for i := 0 to |answers|
      invariant scores == Tally(answers[..i])
    {
      var ans := answers[i];
      assert answers[..i + 1] == answers[..i] + [ans];
      CountSnoc(answers[..i], ans, V);
      CountSnoc(answers[..i], ans, A);
      CountSnoc(answers[..i], ans, K);
      match ans
      case V => scores := scores.(v := scores.v + 1);
      case A => scores := scores.(a := scores.a + 1);
      case K => scores := scores.(k := scores.k + 1);
      case Other(_) =>
    }
    assert answers[..|answers|] == answers;

    var percentages := Percentages(scores, totalQuestions);
    var winners := Winners(scores);

    var dominantResult: Dominant;
    var desc: string;
    if |winners| == 1 {
      dominantResult := Single(winners[0]);
      desc := Description(dominantResult);
    } else {
      dominantResult := Multimodal;
      desc := MultimodalText;
    }

    result := InferenceResult(scores, percentages, dominantResult, desc);
  }
}
