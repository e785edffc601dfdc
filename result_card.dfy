/** The result card: how a loosely populated analysis payload becomes the
    displayed view model, the threat tier and the downloadable JSON report,
    and which card a stored response produces (failure, nothing, or the result). */
module ResultCard {
  import opened Js

  /** The `result` object of a successful response. Every property may be
      missing or `null`; numbers are modelled as exact reals, counts as integers. */
  datatype Payload = Payload(
    finalScore: Field<real>,        // final_score, 0..100
    probFake: Field<real>,          // prob_fake, 0..1
    frameProbs: Field<seq<real>>,   // frame_probs, each 0..1
    framesAnalyzed: Field<int>,     // frames_analyzed
    frameCount: Field<int>,         // frame_count
    framesSkipped: Field<int>,      // frames_skipped
    facesDetected: Field<int>,      // faces_detected
    stdDev: Field<real>,            // std_dev
    stabilityScore: Field<real>,    // stability_score
    confidenceDelta: Field<real>,   // confidence_delta
    mediaQualityScore: Field<real>, // media_quality_score
    inferenceTimeSec: Field<real>,  // inference_time_sec
    highestRiskFrame: Field<int>,   // highest_risk_frame
    labelText: Field<string>,       // label
    explanation: Field<seq<string>> // explanation
  )

  /** A response as stored by the app: `{success, result, error}`. A missing,
      `null` or `false` success flag behaves identically, so it is a bool here. */
  datatype Response = Response(success: bool, result: Field<Payload>, error: Field<string>)

  /** A statistic shown on the card: a number, or the placeholder "-". */
  datatype Display = Dash | Number(x: real)

  datatype Threat = Safe | LowRisk | Uncertain | HighRisk | DeepfakeLikely

  /** Everything the card derives from the payload before rendering. */
  datatype ViewModel = ViewModel(
    finalScore: int,
    fakeProbPct: int,
    realProbPct: int,
    frameProbs: Option<seq<int>>,  // None is the JavaScript `null`
    framesAnalyzed: int,
    facesDetected: int,
    stdDev: Display,               // the number passed to toFixed(3), or "-"
    stability: Display,
    confidenceDelta: real,
    quality: Display,
    inferenceTime: Display,
    highestIdx: Option<int>,       // None is the JavaScript `null`
    threat: Threat
  )

  datatype Meta = Meta(timestamp: string, finalScore: int, labelText: Field<string>)

  /** The `stats` block of the report; None is serialised as `null`. */
  datatype Stats = Stats(
    framesAnalyzed: int,
    facesDetected: int,
    framesSkipped: int,
    avgFakeProb: Option<real>,
    frameProbs: Option<seq<real>>,
    stdDev: Option<real>,
    stabilityScore: Option<real>,
    confidenceDelta: Option<real>,
    mediaQualityScore: Option<real>,
    inferenceTimeSec: Option<real>
  )

  datatype Report = Report(meta: Meta, stats: Stats, explanation: seq<string>)

  /** What the card renders for the `result` it is given. */
  datatype CardView =
    | NoCard                        // `result` is null: the component renders nothing
    | FailureCard(message: string)  // "Analysis Failed" with a message
    | Crashed                       // success, but `result.result` is missing: reading it throws
    | ResultView(payload: Payload, view: ViewModel)

  // ---------------------------------------------------------------------------
  // Derived constants

  /** `prob_fake ?? 0`, the fake probability every fallback uses. */
  function ProbFake(p: Payload): (x: real)
    ensures p.probFake.Present? ==> x == p.probFake.value
    ensures !p.probFake.Present? ==> x == 0.0
  {
    p.probFake.Or(0.0)
  }

  /** The displayed authenticity score. */
  function FinalScore(p: Payload): (s: int)
    ensures p.finalScore.Present? ==> s == Round(p.finalScore.value)
    ensures !p.finalScore.Present? && p.probFake.Present? ==> s == Round(100.0 - 100.0 * p.probFake.value)
    ensures !p.finalScore.Present? && !p.probFake.Present? ==> s == 100
  {
    Round(p.finalScore.Or((1.0 - ProbFake(p)) * 100.0))
  }

  /** The fake percentage: only ever taken from `prob_fake`, 0 when it is missing. */
  function FakeProbPct(p: Payload): (f: int)
    ensures p.probFake.Present? ==> f == Round(p.probFake.value * 100.0)
    ensures !p.probFake.Present? ==> f == 0
  {
    Round(ProbFake(p) * 100.0)
  }

  /** The real percentage, the complement of the fake one. */
  function RealProbPct(p: Payload): (r: int)
    ensures r + FakeProbPct(p) == 100
  {
    100 - FakeProbPct(p)
  }

  /** `ps.map(p => Math.round(p * 100))`. */
  function Percentages(ps: seq<real>): (r: seq<int>)
    ensures |r| == |ps|
    ensures forall i :: 0 <= i < |ps| ==> r[i] == Round(ps[i] * 100.0)
  {
    if |ps| == 0 then []
    else [Round(ps[0] * 100.0)] + Percentages(ps[1..])
  }

  /** The per-frame percentages: present exactly when `frame_probs` is a non-empty array. */
  function FrameProbs(p: Payload): (fp: Option<seq<int>>)
    ensures fp.Some? <==> p.frameProbs.Present? && |p.frameProbs.value| > 0
    ensures fp.Some? ==> |fp.value| == |p.frameProbs.value| > 0
    ensures fp.Some? ==> forall i :: 0 <= i < |fp.value| ==> fp.value[i] == Round(p.frameProbs.value[i] * 100.0)
  {
    if p.frameProbs.Present? && |p.frameProbs.value| > 0 then Some(Percentages(p.frameProbs.value))
    else None
  }

  /** `frames_analyzed ?? frame_count ?? (frameProbs ? frameProbs.length : 1)`. */
  function FramesAnalyzed(p: Payload): (n: int)
    ensures p.framesAnalyzed.Present? ==> n == p.framesAnalyzed.value
    ensures !p.framesAnalyzed.Present? && p.frameCount.Present? ==> n == p.frameCount.value
    ensures !p.framesAnalyzed.Present? && !p.frameCount.Present? ==>
              n == (if FrameProbs(p).Some? then |p.frameProbs.value| else 1)
    ensures !p.framesAnalyzed.Present? && !p.frameCount.Present? ==> n >= 1
  {
    var fp := FrameProbs(p);
    p.framesAnalyzed.Or(p.frameCount.Or(if fp.Some? then |fp.value| else 1))
  }

  /** `faces_detected ?? (framesAnalyzed - (frames_skipped ?? 0))`. */
  function FacesDetected(p: Payload): (n: int)
    ensures p.facesDetected.Present? ==> n == p.facesDetected.value
    ensures !p.facesDetected.Present? ==> n + p.framesSkipped.Or(0) == FramesAnalyzed(p)
  {
    p.facesDetected.Or(FramesAnalyzed(p) - p.framesSkipped.Or(0))
  }

  /** The standard deviation shown: "-" only when `std_dev` is missing; an explicit
      `null` is still formatted, as `Number(null)`, which is 0. */
  function StdDev(p: Payload): (d: Display)
    ensures d.Dash? <==> p.stdDev.Absent?
    ensures p.stdDev.Null? ==> d == Number(0.0)
    ensures p.stdDev.Present? ==> d == Number(p.stdDev.value)
  {
    match p.stdDev
    case Absent => Dash
    case Null => Number(0.0)
    case Present(x) => Number(x)
  }

  /** `x ?? "-"` for the pass-through statistics. */
  function Shown(f: Field<real>): (d: Display)
    ensures d.Dash? <==> !f.Present?
    ensures d.Number? ==> d.x == f.value
  {
    if f.Present? then Number(f.value) else Dash
  }

  /** `confidence_delta ?? (frameProbs ? max - min : 0)`. */
  function ConfidenceDelta(p: Payload): (d: real)
    ensures p.confidenceDelta.Present? ==> d == p.confidenceDelta.value
    ensures !p.confidenceDelta.Present? && FrameProbs(p).None? ==> d == 0.0
    ensures !p.confidenceDelta.Present? && FrameProbs(p).Some? ==>
              var fp := FrameProbs(p).value;
              d >= 0.0 &&
              (forall i, j :: 0 <= i < |fp| && 0 <= j < |fp| ==> (fp[i] - fp[j]) as real <= d) &&
              exists i, j :: 0 <= i < |fp| && 0 <= j < |fp| && (fp[i] - fp[j]) as real == d
  {
    var fp := FrameProbs(p);
    if p.confidenceDelta.Present? then p.confidenceDelta.value
    else if fp.Some? then (Max(fp.value) - Min(fp.value)) as real
    else 0.0
  }

  /** The highest-risk frame: `highest_risk_frame` whenever it is defined (so an
      explicit `null` stays `null`), else the first position of the largest
      per-frame percentage, else 0. */
  function HighestIdx(p: Payload): (h: Option<int>)
    ensures p.highestRiskFrame.Present? ==> h == Some(p.highestRiskFrame.value)
    ensures p.highestRiskFrame.Null? ==> h == None
    ensures p.highestRiskFrame.Absent? && FrameProbs(p).None? ==> h == Some(0)
    ensures p.highestRiskFrame.Absent? && FrameProbs(p).Some? ==>
              var fp := FrameProbs(p).value;
              h.Some? && 0 <= h.value < |fp| &&
              (forall j :: 0 <= j < |fp| ==> fp[j] <= fp[h.value]) &&
              (forall j :: 0 <= j < h.value ==> fp[j] < fp[h.value])
  {
    var fp := FrameProbs(p);
    if p.highestRiskFrame.Defined() then p.highestRiskFrame.OrNull()
    else if fp.Some? then Some(IndexOf(fp.value, Max(fp.value)))
    else Some(0)
  }

  // ---------------------------------------------------------------------------
  // Threat mapping

  /** The tier of a score: each threshold is a strict lower bound, so a score on
      a boundary falls into the riskier tier. */
  function Classify(score: int): (t: Threat)
    ensures t == Safe <==> score > 85
    ensures t == LowRisk <==> 60 < score <= 85
    ensures t == Uncertain <==> 40 < score <= 60
    ensures t == HighRisk <==> 15 < score <= 40
    ensures t == DeepfakeLikely <==> score <= 15
  {
    if score > 85 then Safe
    else if score > 60 then LowRisk
    else if score > 40 then Uncertain
    else if score > 15 then HighRisk
    else DeepfakeLikely
  }

  /** The label shown on the card for a tier; it is never the initial "Unknown"
      (the five labels are distinct: `ThreatTextDistinct`). */
  function ThreatText(t: Threat): (text: string)
    ensures text != "Unknown"
  {
    match t
    case Safe => "Safe"
    case LowRisk => "Low Risk"
    case Uncertain => "Uncertain"
    case HighRisk => "High Risk"
    case DeepfakeLikely => "Deepfake Likely"
  }

  /** Tiers ordered by risk, Safe lowest. */
  function Severity(t: Threat): nat {
    match t
    case Safe => 0
    case LowRisk => 1
    case Uncertain => 2
    case HighRisk => 3
    case DeepfakeLikely => 4
  }

  // ---------------------------------------------------------------------------
  // The whole view model, the report and the card

  function Normalize(p: Payload): (v: ViewModel)
    ensures v.realProbPct + v.fakeProbPct == 100
    ensures v.threat == Classify(v.finalScore)
    ensures v.frameProbs.Some? ==> |v.frameProbs.value| > 0
    ensures v.frameProbs.None? ==> v.confidenceDelta == p.confidenceDelta.Or(0.0)
  {
    var finalScore := FinalScore(p);
    ViewModel(
      finalScore,
      FakeProbPct(p),
      RealProbPct(p),
      FrameProbs(p),
      FramesAnalyzed(p),
      FacesDetected(p),
      StdDev(p),
      Shown(p.stabilityScore),
      ConfidenceDelta(p),
      Shown(p.mediaQualityScore),
      Shown(p.inferenceTimeSec),
      HighestIdx(p),
      Classify(finalScore))
  }

  /** The JSON document `downloadReport` saves; the clock reading is a parameter. */
  function BuildReport(p: Payload, timestamp: string): (rep: Report)
    ensures rep.meta.timestamp == timestamp
    ensures rep.meta.finalScore == Normalize(p).finalScore
    ensures rep.meta.labelText == p.labelText
    ensures rep.stats.framesAnalyzed == Normalize(p).framesAnalyzed
    ensures rep.stats.facesDetected == Normalize(p).facesDetected
    ensures rep.stats.framesSkipped == (if p.framesSkipped.Present? then p.framesSkipped.value else 0)
    ensures rep.explanation == (if p.explanation.Present? then p.explanation.value else [])
  {
    var v := Normalize(p);
    Report(
      Meta(timestamp, v.finalScore, p.labelText),
      Stats(
        v.framesAnalyzed,
        v.facesDetected,
        p.framesSkipped.Or(0),
        p.probFake.OrNull(),
        p.frameProbs.OrNull(),
        p.stdDev.OrNull(),
        p.stabilityScore.OrNull(),
        p.confidenceDelta.OrNull(),
        p.mediaQualityScore.OrNull(),
        p.inferenceTimeSec.OrNull()),
      p.explanation.Or([]))
  }

  /** `result.error || "Unknown error"`: an empty message is falsy too. */
  function ErrorText(e: Field<string>): (s: string)
    ensures |s| > 0
    ensures e.Present? && e.value != "" ==> s == e.value
    ensures !(e.Present? && e.value != "") ==> s == "Unknown error"
  {
    if e.Present? && e.value != "" then e.value else "Unknown error"
  }

  /** The card rendered for the stored `result` (None is `null`). */
  function Card(result: Option<Response>): (c: CardView)
    ensures c.NoCard? <==> result.None?
    ensures c.FailureCard? <==> result.Some? && !result.value.success
    ensures c.FailureCard? ==> c.message == ErrorText(result.value.error)
    ensures c.Crashed? <==> result.Some? && result.value.success && !result.value.result.Present?
    ensures c.ResultView? ==> result.Some? && result.value.result == Present(c.payload) && c.view == Normalize(c.payload)
  {
    match result
    case None => NoCard
    case Some(res) =>
      if !res.success then FailureCard(ErrorText(res.error))
      else if res.result.Present? then ResultView(res.result.value, Normalize(res.result.value))
      else Crashed
  }

  // ---------------------------------------------------------------------------
  // Properties

  /** Without `final_score` the score comes from `1 - prob_fake`, rounded after
      complementing, while the real percentage is complemented after rounding.
      The two agree except when `prob_fake * 100` is exactly half-way between two
      integers, where the score is one more than the real percentage. */
  lemma FinalScoreAgainstRealPct(p: Payload)
    requires !p.finalScore.Present?
    ensures FinalScore(p) == RealProbPct(p) + (if IsHalfInteger(ProbFake(p) * 100.0) then 1 else 0)
  {
  }

  /** With neither score field, the score is 100, the card is "Safe" and the fake
      percentage is 0: missing data is never reported as an error. */
  lemma MissingScoreIsSafe(p: Payload)
    requires !p.finalScore.Present? && !p.probFake.Present?
    ensures Normalize(p).finalScore == 100 && Normalize(p).threat == Safe
    ensures Normalize(p).fakeProbPct == 0 && Normalize(p).realProbPct == 100
  {
  }

  /** A payload whose three frames are 0.1, 0.9 and 0.3 shows 10%, 90% and 30%
      per frame, three frames analysed, a confidence delta of 80 and frame 1 as
      the highest risk. */
  lemma ThreeFrameExample(p: Payload)
    requires p.frameProbs == Present([0.1, 0.9, 0.3])
    requires !p.framesAnalyzed.Present? && !p.frameCount.Present?
    requires !p.confidenceDelta.Present? && p.highestRiskFrame.Absent?
    ensures Normalize(p).frameProbs == Some([10, 90, 30])
    ensures Normalize(p).framesAnalyzed == 3
    ensures Normalize(p).confidenceDelta == 80.0
    ensures Normalize(p).highestIdx == Some(1)
  {
    RoundOfInteger(10);
    RoundOfInteger(90);
    RoundOfInteger(30);
    var fp := Percentages([0.1, 0.9, 0.3]);
    assert fp == [10, 90, 30];
    assert Max(fp) == 90;
    assert Min(fp) == 10;
    assert IndexOf(fp, 90) == 1;
  }

  /** The highest-risk frame is chosen among the ROUNDED percentages: with raw
      values 0.899 and 0.901 both frames show 90%, so frame 0 is reported even
      though frame 1 has the larger raw probability. */
  lemma HighestIdxUsesRoundedValues(p: Payload)
    requires p.frameProbs == Present([0.899, 0.901]) && p.highestRiskFrame.Absent?
    ensures Normalize(p).frameProbs == Some([90, 90])
    ensures Normalize(p).highestIdx == Some(0)
  {
    var fp := Percentages([0.899, 0.901]);
    assert fp[0] == Round(89.9) == 90;
    assert fp[1] == Round(90.1) == 90;
    assert fp == [90, 90];
    assert Max(fp) == 90;
  }

  /** For inputs in their documented ranges (a score of 0..100 and probabilities
      of 0..1), the score, both halves of the split and every per-frame value lie
      in 0..100. Nothing clamps the inputs, so values outside those ranges carry
      through to the card. */
  lemma PercentagesInRange(p: Payload)
    requires p.finalScore.Present? ==> 0.0 <= p.finalScore.value <= 100.0
    requires p.probFake.Present? ==> 0.0 <= p.probFake.value <= 1.0
    requires p.frameProbs.Present? ==> forall i :: 0 <= i < |p.frameProbs.value| ==> 0.0 <= p.frameProbs.value[i] <= 1.0
    ensures var v := Normalize(p);
      0 <= v.finalScore <= 100 && 0 <= v.fakeProbPct <= 100 && 0 <= v.realProbPct <= 100 &&
      (v.frameProbs.Some? ==> forall i :: 0 <= i < |v.frameProbs.value| ==> 0 <= v.frameProbs.value[i] <= 100)
  {
  }

  /** The score thresholds on both sides of each boundary. */
  lemma ThreatBoundaries()
    ensures Classify(92) == Safe && Classify(86) == Safe
    ensures Classify(85) == LowRisk && Classify(61) == LowRisk
    ensures Classify(60) == Uncertain && Classify(41) == Uncertain
    ensures Classify(40) == HighRisk && Classify(16) == HighRisk
    ensures Classify(15) == DeepfakeLikely && Classify(10) == DeepfakeLikely
  {
  }

  /** A higher score never yields a riskier tier. */
  lemma ClassifyMonotone(a: int, b: int)
    requires a <= b
    ensures Severity(Classify(b)) <= Severity(Classify(a))
  {
  }

  /** The five labels are distinct, and the initial "Unknown" is never shown. */
  lemma ThreatTextDistinct(s: int, t: Threat)
    ensures ThreatText(Classify(s)) != "Unknown"
    ensures ThreatText(t) == ThreatText(Classify(s)) ==> t == Classify(s)
  {
  }

  /** Every raw statistic the service sent reaches the report exactly (the fake
      probability as the 0..1 fraction, the per-frame values unrounded), and
      every one it did not send, or sent as `null`, is an explicit `null`. */
  lemma ReportKeepsRawValues(p: Payload, timestamp: string)
    ensures var s := BuildReport(p, timestamp).stats;
      (s.avgFakeProb.Some? <==> p.probFake.Present?) &&
      (s.avgFakeProb.Some? ==> s.avgFakeProb.value == p.probFake.value) &&
      (s.frameProbs.Some? <==> p.frameProbs.Present?) &&
      (s.frameProbs.Some? ==> s.frameProbs.value == p.frameProbs.value) &&
      (s.stdDev.Some? <==> p.stdDev.Present?) &&
      (s.stdDev.Some? ==> s.stdDev.value == p.stdDev.value) &&
      (s.stabilityScore.Some? <==> p.stabilityScore.Present?) &&
      (s.stabilityScore.Some? ==> s.stabilityScore.value == p.stabilityScore.value) &&
      (s.confidenceDelta.Some? <==> p.confidenceDelta.Present?) &&
      (s.confidenceDelta.Some? ==> s.confidenceDelta.value == p.confidenceDelta.value) &&
      (s.mediaQualityScore.Some? <==> p.mediaQualityScore.Present?) &&
      (s.mediaQualityScore.Some? ==> s.mediaQualityScore.value == p.mediaQualityScore.value) &&
      (s.inferenceTimeSec.Some? <==> p.inferenceTimeSec.Present?) &&
      (s.inferenceTimeSec.Some? ==> s.inferenceTimeSec.value == p.inferenceTimeSec.value)
  {
  }

  /** A missing fake probability and a fake probability of 0 give the same card,
      but the report tells them apart. */
  lemma ReportSeparatesMissingFromZero(p: Payload, timestamp: string)
    requires !p.probFake.Present?
    ensures Normalize(p) == Normalize(p.(probFake := Present(0.0)))
    ensures BuildReport(p, timestamp).stats.avgFakeProb == None
    ensures BuildReport(p.(probFake := Present(0.0)), timestamp).stats.avgFakeProb == Some(0.0)
  {
  }

  /** An empty `frame_probs` array shows no per-frame data and counts one frame,
      yet the report keeps the empty array rather than `null`. */
  lemma EmptyFrameProbs(p: Payload, timestamp: string)
    requires p.frameProbs == Present([])
    requires !p.framesAnalyzed.Present? && !p.frameCount.Present? && !p.confidenceDelta.Present?
    ensures Normalize(p).frameProbs == None
    ensures Normalize(p).framesAnalyzed == 1
    ensures Normalize(p).confidenceDelta == 0.0
    ensures BuildReport(p, timestamp).stats.frameProbs == Some([])
  {
  }

  /** A service-reported failure shows its message verbatim; a failure without a
      message, or with an empty one, shows "Unknown error". */
  lemma FailureMessages(p: Field<Payload>)
    ensures Card(Some(Response(false, p, Present("file too large")))) == FailureCard("file too large")
    ensures Card(Some(Response(false, p, Absent))) == FailureCard("Unknown error")
    ensures Card(Some(Response(false, p, Present("")))) == FailureCard("Unknown error")
  {
  }
}
