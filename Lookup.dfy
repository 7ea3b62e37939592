/** The presentation tables beside the engine: a display label and a colour
    per style key. Both take any string; an unknown key falls back. */
module Lookup {
  import opened Types

  const Labels: map<string, string> :=
    map["V" := "Visual", "A" := "Auditory", "K" := "Kinesthetic", "Multimodal" := "Multimodal"]

  const Colors: map<string, string> :=
    map["V" := "hsl(220, 70%, 50%)", "A" := "hsl(280, 65%, 60%)", "K" := "hsl(160, 60%, 45%)"]

  /** The colour of any key the colour table does not hold. */
  const NeutralColor: string := "hsl(0, 0%, 50%)"

  /** The label table entry for key, or key itself when the table has no
      (non-empty) entry for it. */
  function LearningStyleLabel(key: string): (text: string)
    ensures key == "V" ==> text == "Visual"
    ensures key == "A" ==> text == "Auditory"
    ensures key == "K" ==> text == "Kinesthetic"
    ensures text == key <==> key !in {"V", "A", "K"}
  {
    if key in Labels && Labels[key] != "" then Labels[key] else key
  }

  /** The colour table entry for key, or the neutral grey when the table has
      no (non-empty) entry for it. */
  function LearningStyleColor(key: string): (color: string)
    ensures key == "V" ==> color == "hsl(220, 70%, 50%)"
    ensures key == "A" ==> color == "hsl(280, 65%, 60%)"
    ensures key == "K" ==> color == "hsl(160, 60%, 45%)"
    ensures color == NeutralColor <==> key !in {"V", "A", "K"}
  {
    if key in Colors && Colors[key] != "" then Colors[key] else NeutralColor
  }

  /** Labelling a label changes nothing: every label is its own label. */
  lemma LabelIdempotent(key: string)
    ensures LearningStyleLabel(LearningStyleLabel(key)) == LearningStyleLabel(key)
  {
    var shown := LearningStyleLabel(key);
    assert shown !in {"V", "A", "K"} by {
      if key in {"V", "A", "K"} {
        assert shown in {"Visual", "Auditory", "Kinesthetic"};
      }
    }
  }

  /** On the keys the engine emits as its dominant value, the label is the
      full style name, and the colour tells the three categories apart and
      shows Multimodal in neutral grey. */
  lemma DominantPresentation(d: Dominant, e: Dominant)
    ensures LearningStyleLabel(DominantKey(d)) ==
      match d
      case Single(c) => if c == V then "Visual" else if c == A then "Auditory" else "Kinesthetic"
      case Multimodal => "Multimodal"
    ensures LearningStyleColor(DominantKey(d)) == NeutralColor <==> d == Multimodal
    ensures LearningStyleColor(DominantKey(d)) == LearningStyleColor(DominantKey(e)) <==> d == e
  {
  }
}
