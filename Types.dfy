/** The data shapes the inference engine reads and produces. */
module Types {

  /** The tag an answer carries: the category of the option the user chose.
      V, A and K are the categories the engine scores. Any other tag (the
      "R" of the local fallback question bank, for one) is an Other that
      keeps its key; the engine has no counter for it. */
  datatype Tag = V | A | K | Other(key: string)

  /** The scored categories: the keys of the score object. */
  type Category = t: Tag | !t.Other? witness V

  /** A tag as it arrives from a question option: an Other never carries
      one of the scored keys, so a key string names exactly one answer. */
  type Answer = t: Tag | t.Other? ==> t.key !in {"V", "A", "K"} witness V

  /** The keys of the score object in declaration order, which is the order
      in which the winners are collected. */
  const Categories: seq<Category> := [V, A, K]

  /** The key string under which a tag travels through the application. */
  function TagKey(t: Tag): (key: string)
  {
    match t
    case V => "V"
    case A => "A"
    case K => "K"
    case Other(k) => k
  }

  /** The answer an option's key string stands for. */
  function TagOf(key: string): (t: Answer)
    ensures TagKey(t) == key
    ensures t.Other? <==> key !in {"V", "A", "K"}
  {
    if key == "V" then V else if key == "A" then A else if key == "K" then K else Other(key)
  }

  /** Reading back the key of an answer gives the same answer. */
  lemma TagKeyRoundTrip(t: Answer)
    ensures TagOf(TagKey(t)) == t
  {
  }

  /** A record with one natural number per category; used both for the raw
      counts and for the percentages. */
  datatype Scores = Scores(v: nat, a: nat, k: nat) {
    /** The entry of category c. */
    function Get(c: Category): nat
    {
      if c == V then v else if c == A then a else k
    }
  }

  /** The value of the result's dominant field: one category, or the
      Multimodal label when no single category leads. */
  datatype Dominant = Single(style: Category) | Multimodal

  /** The string the result carries in its dominant field. */
  function DominantKey(d: Dominant): (key: string)
    ensures key in {"V", "A", "K", "Multimodal"}
    ensures d.Single? ==> TagOf(key) == d.style
  {
    match d
    case Single(c) => TagKey(c)
    case Multimodal => "Multimodal"
  }

  /** What one run of the engine produces. */
  datatype InferenceResult = InferenceResult(
    rawScores: Scores,
    percentages: Scores,
    dominant: Dominant,
    description: string)
}
