# Deep-Shield result card and app shell, modelled in Dafny

Deep-Shield has a browser front end that uploads an image or video to a
deepfake-detection service. It then shows the service's verdict on a result
card. This project models the two parts of the front end that do more than
render:

- **ResultCard** (`result_card.dfy`): the card's derivation logic. From a
  loosely populated `result` payload it derives:
  - the final (authenticity) score;
  - complementary real/fake percentages;
  - per-frame percentages;
  - frame and face counts;
  - the displayed statistics;
  - the confidence delta;
  - the highest-risk frame index;
  - one of five threat tiers;
  - the JSON report that "Download JSON Report" saves.

  It also decides which card a stored response produces: nothing, "Analysis
  Failed" with a message, a render crash, or the result view.
- **App** (`app.dfy`): the shell's three state cells `screen`, `result` and
  `loading`, as a class. Its methods are the home button (`Start`), the
  analyse callback (`Analyze` = `Submit` then `Settle`, around the one awaited
  request) and the result card's reset button (`Reset`). Each method may only
  be called while the component holding its callback is rendered. The
  predicates `ShowsHome`, `ShowsUpload`, `ShowsLoader` and `ShowsResult` give
  the render guards.
- **Js** (`js.dfy`): the JavaScript semantics the card relies on. A property
  may be missing, `null` or present (`Field`). It also has `??`, `Math.round`
  (half up, as `Floor(x + 1/2)`), spread `Math.max`/`Math.min` and `indexOf`.

Modelling decisions:

- Numbers are exact `real`s and counts are integers.
- `??` treats a missing property and an explicit `null` alike.
- `std_dev` and `highest_risk_frame` are tested with `typeof !== "undefined"`,
  so an explicit `null` counts as present for them. For `std_dev`, `null`
  displays as `Number(null)`, which is 0. For `highest_risk_frame`, `null`
  stays `null`.
- The request outcome is a parameter of `Analyze`: `Ok(response)` or
  `Threw(message)`. The report's timestamp is a parameter of `BuildReport`.

Behaviour of the code worth knowing:

- With neither `final_score` nor `prob_fake`, the score is 100, the tier is
  "Safe", and no error is raised (`MissingScoreIsSafe`).
- `fakeProbPct` comes only from `prob_fake`, and is 0 when it is missing. It
  is never derived from the final score.
- `Math.round` rounds halves towards +infinity: 2.5 becomes 3 and -2.5
  becomes -2.
- Without `final_score`, the score rounds after complementing, but the real
  percentage complements after rounding. So the two differ by one exactly when
  `prob_fake * 100` is a half-integer (`FinalScoreAgainstRealPct`).
- The score is classified as it is; nothing clamps it to 0..100. The
  percentages stay in 0..100 only while the inputs are in their documented
  ranges (`PercentagesInRange`).
- The report's `meta.label` is copied without a `null` default. A missing
  label therefore drops the key from the JSON, where every `stats` field
  writes `null` instead (`Meta.labelText` keeps the three-way `Field`).
- The shell's screens are `home`, `upload`, `loading` and `result`. The
  result card can be reached with no usable payload: a success flag with no
  `result` object throws while rendering (`Crashed`). Nothing catches that
  error, so the card, and its reset button, disappear.

## Model

| member | source | states |
|---|---|---|
| `Js.Round` | frontend/src/components/ResultCard.jsx:34-37 | the result is the integer within one half of the argument, halves going up |
| `Js.RoundOfNegation` | frontend/src/components/ResultCard.jsx:34-36 | rounding a negated value gives the negated rounding, plus one exactly at half-integers |
| `Js.Max` | frontend/src/components/ResultCard.jsx:42 | the spread maximum of a non-empty array is an element no smaller than any other |
| `Js.Min` | frontend/src/components/ResultCard.jsx:42 | the spread minimum of a non-empty array is an element no larger than any other |
| `Js.IndexOf` | frontend/src/components/ResultCard.jsx:45 | the first position holding the value, and -1 exactly when it does not occur |
| `Js.RoundMonotone` | frontend/src/components/ResultCard.jsx:34-37 | a larger argument never rounds to a smaller integer |
| `ResultCard.ProbFake` | frontend/src/components/ResultCard.jsx:34-35 | the fake probability every fallback uses: `prob_fake` when present, else 0 |
| `ResultCard.FinalScore` | frontend/src/components/ResultCard.jsx:34 | the rounded `final_score` when present, else the rounded `(1 - prob_fake) * 100`, and 100 when both are missing |
| `ResultCard.FakeProbPct` | frontend/src/components/ResultCard.jsx:35 | the rounded `prob_fake * 100`, and 0 when `prob_fake` is missing, whatever the final score |
| `ResultCard.RealProbPct` | frontend/src/components/ResultCard.jsx:36 | real and fake percentages always sum to exactly 100 |
| `ResultCard.Percentages` | frontend/src/components/ResultCard.jsx:37 | the mapped array has the same length and element i is the rounded `ps[i] * 100` |
| `ResultCard.FrameProbs` | frontend/src/components/ResultCard.jsx:37 | per-frame data is present iff `frame_probs` is a non-empty array; it then has the same length and holds each rounded percentage |
| `ResultCard.FramesAnalyzed` | frontend/src/components/ResultCard.jsx:38 | first of `frames_analyzed`, `frame_count`, the per-frame length, then 1; at least 1 when both counts are missing |
| `ResultCard.FacesDetected` | frontend/src/components/ResultCard.jsx:39 | `faces_detected` when present, else the frames analysed minus the frames skipped (0 when missing) |
| `ResultCard.StdDev` | frontend/src/components/ResultCard.jsx:40 | "-" exactly when `std_dev` is missing; an explicit null is formatted as 0 |
| `ResultCard.Shown` | frontend/src/components/ResultCard.jsx:41-44 | a pass-through statistic shows "-" exactly when missing or null, else its own value |
| `ResultCard.ConfidenceDelta` | frontend/src/components/ResultCard.jsx:42 | `confidence_delta` when present; else, with per-frame data, a non-negative value that bounds every pairwise difference and equals one of them; else 0 |
| `ResultCard.HighestIdx` | frontend/src/components/ResultCard.jsx:45 | a defined `highest_risk_frame` is used as is (null stays null); else the first index of the largest per-frame percentage, in range; else 0 |
| `ResultCard.Classify` | frontend/src/components/ResultCard.jsx:47-54 | each of the five tiers holds exactly on its score interval, bounded below strictly at 85, 60, 40 and 15 |
| `ResultCard.ThreatText` | frontend/src/components/ResultCard.jsx:48-54 | the label shown for a tier ("Safe", "Low Risk", "Uncertain", "High Risk", "Deepfake Likely"), never the initial "Unknown" |
| `ResultCard.Normalize` | frontend/src/components/ResultCard.jsx:34-54 | the view model's percentages are complementary, its tier is the classification of its score, and its per-frame data is non-empty when present; its 0..100 range for inputs in range is `PercentagesInRange` |
| `ResultCard.BuildReport` | frontend/src/components/ResultCard.jsx:56-76 | the report's meta score and counts equal the displayed ones, skipped frames default to 0, explanation defaults to the empty list |
| `ResultCard.ErrorText` | frontend/src/components/ResultCard.jsx:23 | the failure message is the error when it is a non-empty string, else "Unknown error"; never empty |
| `ResultCard.Card` | frontend/src/components/ResultCard.jsx:17-31 | no card iff no result; a failure card iff the success flag is falsy; a crash iff success without a result object; otherwise the normalised view of that payload |
| `ResultCard.FinalScoreAgainstRealPct` | frontend/src/components/ResultCard.jsx:34-36 | without `final_score`, the score equals the real percentage, except one more when `prob_fake * 100` is a half-integer |
| `ResultCard.PercentagesInRange` | frontend/src/components/ResultCard.jsx:34-37 | with a score in 0..100 and probabilities in 0..1, the score, the fake and real percentages and every per-frame percentage lie in 0..100 |
| `ResultCard.MissingScoreIsSafe` | frontend/src/components/ResultCard.jsx:34-50 | with neither score field the score is 100, the tier Safe and the split 100/0 |
| `ResultCard.ThreeFrameExample` | frontend/src/components/ResultCard.jsx:37-45 | frames 0.1, 0.9, 0.3 give percentages 10, 90, 30, three frames, delta 80 and highest-risk frame 1 |
| `ResultCard.HighestIdxUsesRoundedValues` | frontend/src/components/ResultCard.jsx:45 | the highest-risk frame is chosen after rounding: 0.899 and 0.901 both show 90 and frame 0 is reported |
| `ResultCard.ThreatBoundaries` | frontend/src/components/ResultCard.jsx:50-54 | scores on and beside each boundary: 92 and 86 Safe, 85 Low Risk, 60 Uncertain, 40 High Risk, 15 and 10 Deepfake Likely |
| `ResultCard.ClassifyMonotone` | frontend/src/components/ResultCard.jsx:50-54 | a higher score never gives a riskier tier |
| `ResultCard.ThreatTextDistinct` | frontend/src/components/ResultCard.jsx:48-54 | the shown label is never the initial "Unknown" and determines the tier |
| `ResultCard.ReportKeepsRawValues` | frontend/src/components/ResultCard.jsx:67-73 | each raw statistic is in the report unchanged when present (fake probability as a fraction, frames unrounded) and null exactly when missing or null |
| `ResultCard.ReportSeparatesMissingFromZero` | frontend/src/components/ResultCard.jsx:35-67 | a missing fake probability and 0 give the same view model but different reports |
| `ResultCard.EmptyFrameProbs` | frontend/src/components/ResultCard.jsx:37-68 | an empty frame array gives no per-frame data, one frame and delta 0, while the report keeps the empty array |
| `ResultCard.FailureMessages` | frontend/src/components/ResultCard.jsx:19-23 | a failure shows its message verbatim, and "Unknown error" when it is missing or empty |
| `App.Stored` | frontend/src/App.jsx:19-24 | a response is stored exactly; a thrown error is stored as an unsuccessful result carrying its message and no payload |
| `App.ThrownErrorShowsFailure` | frontend/src/App.jsx:22-24 | a thrown error always leads to a failure card with its message, or "Unknown error" when it is empty |
| `App.AppState.ShowsHome` | frontend/src/App.jsx:32 | the home page is rendered on the home screen, and then no result exists and nothing is loading |
| `App.AppState.ShowsUpload` | frontend/src/App.jsx:34 | the upload card is rendered iff the screen is the upload screen, and never while a request is in flight, so only one request runs at a time |
| `App.AppState.ShowsLoader` | frontend/src/App.jsx:36 | the loader overlay is rendered exactly on the loading screen, and then no result is held |
| `App.AppState.ShowsResult` | frontend/src/App.jsx:45 | the result card is rendered iff the screen is the result screen and nothing is loading, and then a result exists |
| `App.AppState.ShownCard` | frontend/src/App.jsx:45-50 | a card is on screen iff the result card is rendered, and then it is never the empty card |
| `App.AppState.constructor` | frontend/src/App.jsx:9-11 | starts on the home screen with no result and not loading |
| `App.AppState.Start` | frontend/src/App.jsx:32 | from the home screen moves to the upload screen; result and loading unchanged |
| `App.AppState.Reset` | frontend/src/App.jsx:48 | from a rendered result card that did not throw, moves to the upload screen and keeps the result |
| `App.AppState.Submit` | frontend/src/App.jsx:14-16 | started from the upload card, the only holder of the callback: loading, the loading screen and no result, with only the loader rendered |
| `App.AppState.Settle` | frontend/src/App.jsx:18-26 | after the await, in either branch: the stored outcome, the result screen, loading cleared |
| `App.AppState.Analyze` | frontend/src/App.jsx:13-27 | started from the upload card, ends on the result screen, not loading, with the card for the stored outcome shown; keeps the state invariant |

## Left out

- Floating point: JavaScript numbers are doubles. The model uses exact reals, so `NaN`, infinities and rounding errors in `p * 100` are not modelled. With a `NaN` score every threshold test fails and the card would say "Deepfake Likely".
- Out-of-range inputs: a `final_score` outside 0..100, or a probability outside 0..1, is not clamped. It reaches the card and the tier as it is. `PercentagesInRange` therefore promises the 0..100 range only for inputs in range.
- Render errors: a `Crashed` card stands for the whole page being torn down. The model does not go on to describe that empty page. It only forbids `Reset` from that state, since no reset button exists there.
- Payload typing: every property has one fixed type. A property of the wrong type is not modelled, e.g. a `frame_probs` that is not an array, or a numeric string. Neither are values that `??` would keep but later arithmetic would coerce.
- Formatting: `Number(...).toFixed(3)` is not modelled. `StdDev` yields the number that would be formatted.
- Report I/O: the download is not modelled. That covers the `Blob`, `URL.createObjectURL`, the anchor click, the `Date.now()` file name and `JSON.stringify`. The `toISOString()` timestamp is a parameter.
- Rendering: the JSX, the threat colour classes, the gauge colours and the example-frame image are not modelled. Nor is the "Fake Prob" caption under the highest-risk frame.
- Transport: choosing `analyzeImage` or `analyzeVideo`, their endpoints and timeouts, and the base-URL fallback are transport configuration. The request's result is the `Outcome` parameter of `Analyze`.
- Scheduling: the await and React's state batching are modelled as one sequential update between `Submit` and `Settle`.
- The backend (inference, face detection, HTTP routing) is not part of this model. Neither are the upload card, home page, theme toggle and loader components.
