# Learning-style inference engine, modelled in Dafny

This project models the inference engine of a VARK-style learning-style
quiz. The engine takes the list of answers a user gave. Each answer is the
category tag of the option chosen. The engine counts the answers per
category (Visual `V`, Auditory `A`, Kinesthetic `K`) and rounds a
percentage for each category over the number of answers. It then names the
dominant category, or the label `Multimodal` when several categories share
the highest count, and attaches the fixed description text for that value.
Two lookup tables sit beside it. They give a display label and a display
colour per style key, with a fallback for unknown keys.

Files:

- `Types.dfy` (module `Types`): the data shapes. `Tag = V | A | K | Other(key)`
  is an answer tag. `Other` covers any tag the score object has no counter
  for, such as the `"R"` that the local fallback question bank emits.
  `Category` is the subset of scored tags. `Scores` is the `{V, A, K}` record
  used for counts and percentages. `Dominant = Single(c) | Multimodal` is the
  value of the `dominant` field. `InferenceResult` is the whole result.
- `Inference.dfy` (module `Inference`): the engine. `CalculateLearningStyle`
  is the imperative pass: a loop that increments one counter per scored
  answer, then the percentage, winners and dominant steps. `Infer` is the
  same computation written as a function. It is built from `Count`/`Tally`,
  `RoundPercent`/`Percentages`, `MaxScore`, `Winners`, `DominantOf` and
  `Description`. The method is proved to return `Infer(answers)`.
- `Lookup.dfy` (module `Lookup`): the label and colour tables, over strings.
- `Properties.dfy` (module `InferenceProperties`): the lemmas about `Infer`.

Modelling decisions:

- Percentages use exact integers. `Math.round(c / t * 100)` becomes
  `(200 * c + t) / (2 * t)`, which is round half up, and 0 when `t == 0`.
  `RoundPercentIsNearest` proves that this is the nearest integer, with
  halves rounding up, which is what `Math.round` does on non-negative
  values.
- The string in the source's `dominant` field is `DominantKey(dominant)`.
  This works because the engine only ever puts `"V"`, `"A"`, `"K"` or
  `"Multimodal"` there.
- An `Other` tag stands for a tag that does not name a counter. The engine
  method takes `Answer`s: tags whose `Other` key is never `"V"`, `"A"` or
  `"K"`. `TagOf` turns an option's key string into its answer, and
  `TagKeyRoundTrip` shows that, on answers, reading back the key gives the
  same answer.
- Unscored tags reach the engine even though its types say they cannot.
  The answer type admits only `"V" | "A" | "K"` (src/lib/types.ts:12), and
  the engine's doc comment (src/lib/inference.ts:13) promises only those
  three. But the local fallback question bank gives every question a fourth
  option tagged `"R"` (src/routes/quiz.tsx:33 and the matching line of each
  later question). Line 22 of the engine drops such answers from the tally,
  while line 18 still counts them in the total. So `[R, R, R, V]` yields
  dominant `V` at 25% with every other percentage 0
  (`ScenarioUnscoredTags`). The counts sum to the number of answers exactly
  when no answer is unscored (`TallyConservation`).

## Model

| member | source | states |
|---|---|---|
| Types.TagOf | src/lib/inference.ts:21-23 | The answer a key string stands for: its key reads back as the same string, and it is an unscored Other exactly when the string is not "V", "A" or "K" (the keys the score object has) |
| Types.TagKeyRoundTrip | src/lib/inference.ts:21-23 | On answers, turning the key back into a tag gives the same answer |
| Types.DominantKey | src/lib/inference.ts:45-53 | The string put in the dominant field is always "V", "A", "K" or "Multimodal" (lines 47 and 51), and for a single winner it is that category's own key |
| Inference.Infer | src/lib/inference.ts:15-61 | No contract of its own: the engine as a function; its meaning is stated by OrderInvariance, TallyConservation, PercentageBounds, DominantIsStrictLeader, MultimodalOnTie, DescriptionFollowsDominant and EmptyAnswers |
| Inference.Tally | src/lib/inference.ts:17-25 | The score object left by the loop; each counter is at most the number of answers; its meaning is stated by RawScoresAreOccurrences, TallyConservation and TallyPermutation |
| Inference.Percentages | src/lib/inference.ts:28-32 | All percentages are 0 when there are no answers, and each is at most 100 when its count does not exceed the total; the value is pinned by PercentageBounds and RoundPercentIsNearest |
| Inference.DominantOf | src/lib/inference.ts:45-53 | A single dominant category has a count strictly greater than both others; the converse and the Multimodal case are DominantIsStrictLeader and MultimodalOnTie |
| Inference.Description | src/lib/inference.ts:3-9 | No contract of its own: the description table looked up at lines 48 and 52; its meaning is stated by DescriptionFollowsDominant and DescriptionsDiffer |
| Inference.CalculateLearningStyle | src/lib/inference.ts:15-61 | The tally loop (one counter increment per scored answer, unscored tags skipped) followed by the percentage, winners and dominant/description steps returns exactly `Infer(answers)`; the loop invariant is that the counters equal the tally of the answers processed so far |
| Inference.Count | src/lib/inference.ts:21-25 | The number of answers carrying a tag never exceeds the number of answers |
| Inference.CountSnoc | src/lib/inference.ts:21-25 | Processing one more answer adds one to the counter of that answer's own tag and leaves every other count unchanged |
| Inference.RoundPercent | src/lib/inference.ts:28-32 | A percentage is 0 when there are no answers or the count is 0, at most 100 when the count does not exceed the total, and exactly 100 when every answer carries the category |
| Inference.MaxScore | src/lib/inference.ts:35 | The maximum is at least every category's count and equals one of them |
| Inference.Winners | src/lib/inference.ts:38-40 | A category is a winner iff its count equals the maximum; there is at least one winner, at most three, and no category appears twice |
| InferenceProperties.CountIsMultiplicity | src/lib/inference.ts:21-25 | The count of a tag equals its multiplicity in the multiset of answers |
| InferenceProperties.RawScoresAreOccurrences | src/lib/inference.ts:17-25 | Every raw score in the result is the number of answers carrying that category |
| InferenceProperties.TallyConservation | src/lib/inference.ts:17-25 | The sum V + A + K of the raw scores is at most the number of answers, and equals it iff no answer carries an unscored tag |
| InferenceProperties.CountsConservation | src/lib/inference.ts:21-25 | The same conservation fact for the three counts, by induction over the answers |
| InferenceProperties.TallyPermutation | src/lib/inference.ts:21-25 | Two answer lists with the same multiset of answers leave the same three counters |
| InferenceProperties.OrderInvariance | src/lib/inference.ts:15-61 | Two answer lists with the same multiset of answers give the identical result: counts, percentages, dominant value and description |
| InferenceProperties.SwapInvariance | src/lib/inference.ts:21-25 | Swapping any two answers leaves the result unchanged |
| InferenceProperties.RoundPercentIsNearest | src/lib/inference.ts:29-31 | The rounded percentage is an integer nearest to 100 * count / total, and on a tie between two integers it is the larger one (round half up) |
| InferenceProperties.PercentageBounds | src/lib/inference.ts:18-32 | Each percentage is the rounded share of that category's occurrences over all answers (unscored ones included), lies in [0, 100], and is 0 for an empty answer list |
| InferenceProperties.DominantIsStrictLeader | src/lib/inference.ts:35-48 | The dominant value is a category c iff c's count is strictly greater than both other counts |
| InferenceProperties.StrictLeaderScores | src/lib/inference.ts:35-48 | For any score record, the dominant value is category c iff c's count is strictly greater than both other counts |
| InferenceProperties.MultimodalOnTie | src/lib/inference.ts:38-53 | The dominant value is Multimodal iff two different categories share the maximum count |
| InferenceProperties.EmptyAnswers | src/lib/inference.ts:17-53 | For no answers, all counts and percentages are 0, and the result is Multimodal with the Multimodal description |
| InferenceProperties.DescriptionFollowsDominant | src/lib/inference.ts:42-53 | The description is the table text of the dominant value, and it equals the text of some value d iff the dominant value is d |
| InferenceProperties.DescriptionsDiffer | src/lib/inference.ts:3-9 | The four description texts are pairwise different |
| InferenceProperties.ScenarioVisualLeads | src/lib/inference.ts:15-61 | `[V, V, A, K]` gives counts 2/1/1, percentages 50/25/25, dominant V with the Visual text |
| InferenceProperties.ScenarioTie | src/lib/inference.ts:45-53 | `[V, A]` gives counts 1/1/0, percentages 50/50/0, and Multimodal |
| InferenceProperties.ScenarioUnscoredTags | src/lib/inference.ts:21-32 | `[R, R, R, V]` gives counts 1/0/0, percentages 25/0/0, and dominant V: the R answers are dropped from the tally but kept in the total |
| Lookup.LearningStyleLabel | src/lib/inference.ts:63-71 | `V`, `A`, `K` map to Visual, Auditory, Kinesthetic; a key is returned unchanged iff it is not one of those three (so `Multimodal` and every unknown key map to themselves) |
| Lookup.LearningStyleColor | src/lib/inference.ts:73-80 | `V`, `A`, `K` map to their fixed colours; the result is the neutral grey iff the key is not one of those three (`Multimodal` included) |
| Lookup.LabelIdempotent | src/lib/inference.ts:63-71 | Applying the label lookup to a label gives the same label |
| Lookup.DominantPresentation | src/lib/inference.ts:63-80 | For every dominant value the engine can produce, the label is the full style name; the colour is neutral grey iff the value is Multimodal; two dominant values get the same colour iff they are equal |

## Left out

- Floating point: `Math.round(x / t * 100)` on IEEE doubles is modelled over exact integers. A case where the double quotient misses an exact half is not captured.
- JavaScript object-prototype keys: when a tag or lookup key is an inherited property name such as `"toString"` or `"constructor"`, the source's `scores[ans] !== undefined`, `labels[type]` and `colors[type]` tests would see an inherited member. The model treats every key other than the table's own keys as absent.
- Page rendering, routing, local-storage hand-off between screens and clipboard sharing (the route components): UI and browser I/O.
- Loading questions from and saving results to the remote datastore, and the hardcoded fallback question bank: remote I/O and data. The bank matters only as the source of `"R"` tags, which `Other` covers.
- The recommendation-service client in `src/lib/gemini.ts`: a network call and prompt templating around a foreign client.
- Recomputing a stored result on the shared-result page (src/routes/shared.$id.tsx:49-76): that page is not part of this model. It does not rerun the engine. It divides by the sum of the stored counts rather than by the number of answers, which is `Percentages(s, s.v + s.a + s.k)`. So after any `"R"` answer it shows other percentages than the result page. It also takes the dominant value from storage instead of recomputing it.
- `src/lib/types.ts` and its persistence record `Result`: type declarations only, mirrored by the datatypes in `Types.dfy`.
