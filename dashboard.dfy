/**
 * The decision helpers of PatientDashboard.js: the lookup guard and the
 * state a lookup sets, severity banding, the chart series built from a
 * score series, and the ranked feature-importance cards.
 * Scores are reals; the floating-point rounding of the browser is not modelled.
 */
module Dashboard {
  import opened Wrappers
  import opened Text

  // ---------------------------------------------------------------------------
  // Severity bands

  const HighThreshold: real := 0.7
  const MediumThreshold: real := 0.4

  /** The MUI palette names the helpers return. */
  datatype Color = ErrorColor | WarningColor | SuccessColor | PrimaryColor

  /** `getSeverityColor` */
  function SeverityColor(score: real): (c: Color)
    ensures c == ErrorColor <==> score >= HighThreshold
    ensures c == WarningColor <==> MediumThreshold <= score < HighThreshold
    ensures c == SuccessColor <==> score < MediumThreshold
  {
    if score >= HighThreshold then ErrorColor
    else if score >= MediumThreshold then WarningColor
    else SuccessColor
  }

  /** `getSeverityText` */
  function SeverityText(score: real): (caption: string)
    ensures caption == "고위험" <==> score >= HighThreshold
    ensures caption == "중위험" <==> MediumThreshold <= score < HighThreshold
    ensures caption == "저위험" <==> score < MediumThreshold
  {
    if score >= HighThreshold then "고위험"
    else if score >= MediumThreshold then "중위험"
    else "저위험"
  }

  /** The inline risk word of the score card. */
  function RiskWord(score: real): (word: string)
    ensures word == "높음" <==> score >= HighThreshold
    ensures word == "보통" <==> MediumThreshold <= score < HighThreshold
    ensures word == "낮음" <==> score < MediumThreshold
  {
    if score >= HighThreshold then "높음"
    else if score >= MediumThreshold then "보통"
    else "낮음"
  }

  /** How alarming a colour is: error over warning over success. */
  function Alarm(c: Color): nat {
    match c
    case ErrorColor => 2
    case WarningColor => 1
    case SuccessColor => 0
    case PrimaryColor => 0
  }

  /** The colour, the label and the risk word always name the same band. */
  lemma BandsAgree(score: real)
    ensures SeverityColor(score) == ErrorColor <==> SeverityText(score) == "고위험"
    ensures SeverityText(score) == "고위험" <==> RiskWord(score) == "높음"
    ensures SeverityColor(score) == WarningColor <==> SeverityText(score) == "중위험"
    ensures SeverityText(score) == "중위험" <==> RiskWord(score) == "보통"
    ensures SeverityColor(score) == SuccessColor <==> SeverityText(score) == "저위험"
    ensures SeverityText(score) == "저위험" <==> RiskWord(score) == "낮음"
    ensures SeverityColor(score) != PrimaryColor
  {
  }

  /** A higher score is never shown as less alarming. */
  lemma SeverityMonotone(lower: real, higher: real)
    requires lower <= higher
    ensures Alarm(SeverityColor(lower)) <= Alarm(SeverityColor(higher))
  {
  }

  /** `patientData.severity_score || 0`: a missing or null score counts as 0. */
  function ScoreOrZero(score: Option<real>): (r: real)
    ensures score.None? ==> r == 0.0
    ensures score.Some? ==> r == score.value
  {
    if score.Some? then score.value else 0.0
  }

  /** The percentage the score card shows; None is the 'N/A' of a missing score. */
  function ScorePercent(score: Option<real>): (r: Option<real>)
    ensures r.None? <==> score.None?
    ensures r.Some? ==> r.value == score.value * 100.0
  {
    if score.Some? then Some(score.value * 100.0) else None
  }

  /** A patient without a score is shown as N/A and banded low risk. */
  lemma MissingScoreIsLowRisk(score: Option<real>)
    requires score.None?
    ensures ScorePercent(score).None?
    ensures SeverityColor(ScoreOrZero(score)) == SuccessColor
    ensures SeverityText(ScoreOrZero(score)) == "저위험" && RiskWord(ScoreOrZero(score)) == "낮음"
  {
  }

  // ---------------------------------------------------------------------------
  // The severity chart

  datatype SeriesPoint = SeriesPoint(time: string, prob: real, std: real)

  /** `severity_score_series`: anything but an array (null included), or an array of points. */
  datatype SeriesInput = NotAnArray | Points(points: seq<SeriesPoint>)

  datatype ChartData = ChartData(labels: seq<string>, scores: seq<real>, stds: seq<real>)

  /**
   * `createSeverityChartData`. `format` is the locale time formatting of a
   * point's time stamp.
   */
  function SeverityChartData(series: SeriesInput, format: string -> string): (r: Option<ChartData>)
    ensures r.None? <==> series.NotAnArray?
    ensures r.Some? ==> |r.value.labels| == |series.points| && |r.value.scores| == |series.points|
                        && |r.value.stds| == |series.points|
    ensures r.Some? ==> forall i :: 0 <= i < |series.points| ==>
      && r.value.labels[i] == format(series.points[i].time)
      && r.value.scores[i] == series.points[i].prob * 100.0
      && r.value.stds[i] == series.points[i].std * 100.0
  {
    if series.NotAnArray? then None
    else
      var ps := series.points;
      Some(ChartData(
        seq(|ps|, i requires 0 <= i < |ps| => format(ps[i].time)),
        seq(|ps|, i requires 0 <= i < |ps| => ps[i].prob * 100.0),
        seq(|ps|, i requires 0 <= i < |ps| => ps[i].std * 100.0)))
  }

  /** A probability series gives percentages between 0 and 100. */
  lemma ChartScoresArePercentages(series: SeriesInput, format: string -> string)
    requires series.Points?
    requires forall i :: 0 <= i < |series.points| ==> 0.0 <= series.points[i].prob <= 1.0
    ensures var r := SeverityChartData(series, format);
            r.Some? && forall i :: 0 <= i < |r.value.scores| ==> 0.0 <= r.value.scores[i] <= 100.0
  {
  }

  // ---------------------------------------------------------------------------
  // Feature-importance cards

  /** One entry of `Object.entries(feature_importance)`. */
  datatype Feature = Feature(key: string, value: real)

  /** Each card's value is at least the next one's. */
  predicate Descending(fs: seq<Feature>) {
    forall i :: 0 <= i < |fs| - 1 ==> fs[i].value >= fs[i + 1].value
  }

  /** Place `f` before the first entry it is not smaller than. */
  function InsertDescending(f: Feature, sorted: seq<Feature>): (r: seq<Feature>)
    requires Descending(sorted)
    ensures Descending(r)
    ensures multiset(r) == multiset(sorted) + multiset{f}
    ensures |r| > 0 && (r[0] == f || (|sorted| > 0 && r[0] == sorted[0]))
  {
    if |sorted| == 0 || f.value >= sorted[0].value then [f] + sorted
    else
      var rest := InsertDescending(f, sorted[1..]);
      assert sorted == [sorted[0]] + sorted[1..];
      [sorted[0]] + rest
  }

  /** `.sort(([,a], [,b]) => b - a)`: the entries ordered by value, largest first. */
  function RankFeatures(entries: seq<Feature>): (r: seq<Feature>)
    ensures Descending(r)
    ensures multiset(r) == multiset(entries)
  {
    if |entries| == 0 then []
    else
      assert entries == [entries[0]] + entries[1..];
      InsertDescending(entries[0], RankFeatures(entries[1..]))
  }

  /** In a descending list the first entry is the largest. */
  lemma {:induction false} FirstIsLargest(fs: seq<Feature>)
    requires Descending(fs) && |fs| > 0
    ensures forall i :: 0 <= i < |fs| ==> fs[0].value >= fs[i].value
  {
    if |fs| > 1 {
      FirstIsLargest(fs[1..]);
      forall i | 1 <= i < |fs| ensures fs[0].value >= fs[i].value {
        assert fs[1..][i - 1] == fs[i];
      }
    }
  }

  /** The card colour by rank: the first red, the second orange, the rest blue. */
  function RankColor(index: nat): (c: Color)
    ensures c == ErrorColor <==> index == 0
    ensures c == WarningColor <==> index == 1
    ensures c != SuccessColor
  {
    if index == 0 then ErrorColor
    else if index == 1 then WarningColor
    else PrimaryColor
  }

  /** `Math.max(...Object.values(feature_importance))` over a non-empty list. */
  function MaxValue(fs: seq<Feature>): (m: real)
    requires |fs| > 0
    ensures forall i :: 0 <= i < |fs| ==> fs[i].value <= m
    ensures exists i :: 0 <= i < |fs| && fs[i].value == m
  {
    if |fs| == 1 then fs[0].value
    else
      var rest := MaxValue(fs[1..]);
      assert forall i :: 1 <= i < |fs| ==> fs[i] == fs[1..][i - 1];
      if fs[0].value >= rest then fs[0].value else rest
  }

  /**
   * The bar width in percent, `Math.min(100, value / max * 100)`; None where
   * the division by a zero maximum gives NaN or minus infinity.
   */
  function BarWidth(value: real, max: real): (w: Option<real>)
    ensures w.None? <==> max == 0.0 && value <= 0.0
    ensures w.Some? ==> w.value <= 100.0
    ensures max > 0.0 && 0.0 <= value <= max ==> w == Some(value / max * 100.0) && 0.0 <= w.value
  {
    if max == 0.0 then (if value > 0.0 then Some(100.0) else None)
    else if value / max * 100.0 < 100.0 then Some(value / max * 100.0)
    else Some(100.0)
  }

  /** The largest value fills its bar. */
  lemma FullBar(m: real)
    requires m > 0.0
    ensures BarWidth(m, m) == Some(100.0)
  {
    assert m / m == 1.0;
  }

  /** Ranking puts an entry with the largest value first. */
  lemma RankedFirstIsMax(entries: seq<Feature>)
    requires |entries| > 0
    ensures |RankFeatures(entries)| == |entries|
    ensures RankFeatures(entries)[0].value == MaxValue(entries)
  {
    var ranked := RankFeatures(entries);
    assert |ranked| == |multiset(ranked)| == |multiset(entries)| == |entries|;
    var m := MaxValue(entries);
    var i :| 0 <= i < |entries| && entries[i].value == m;
    assert entries[i] in multiset(ranked);
    var j :| 0 <= j < |ranked| && ranked[j] == entries[i];
    FirstIsLargest(ranked);
    assert ranked[0] in multiset(entries);
    var k :| 0 <= k < |entries| && entries[k] == ranked[0];
  }

  /** A smaller value never gets a wider bar. */
  lemma BarWidthMonotone(lower: real, higher: real, max: real)
    requires max > 0.0 && lower <= higher
    ensures BarWidth(lower, max).Some? && BarWidth(higher, max).Some?
    ensures BarWidth(lower, max).value <= BarWidth(higher, max).value
  {
    assert lower / max <= higher / max by {
      assert lower / max * max == lower && higher / max * max == higher;
    }
  }

  /**
   * With a positive maximum the top-ranked card's bar is full and the bars
   * shrink (or stay) card by card down the ranking.
   */
  lemma TopCardFullBar(entries: seq<Feature>)
    requires |entries| > 0 && MaxValue(entries) > 0.0
    ensures var ranked := RankFeatures(entries);
            && |ranked| > 0 && BarWidth(ranked[0].value, MaxValue(entries)) == Some(100.0)
            && forall i :: 0 <= i < |ranked| - 1 ==>
                 BarWidth(ranked[i + 1].value, MaxValue(entries)).value <= BarWidth(ranked[i].value, MaxValue(entries)).value
  {
    RankedFirstIsMax(entries);
    FullBar(MaxValue(entries));
    var ranked := RankFeatures(entries);
    forall i {:trigger ranked[i]} | 0 <= i < |ranked| - 1
      ensures BarWidth(ranked[i + 1].value, MaxValue(entries)).Some?
      ensures BarWidth(ranked[i + 1].value, MaxValue(entries)).value <= BarWidth(ranked[i].value, MaxValue(entries)).value
    {
      BarWidthMonotone(ranked[i + 1].value, ranked[i].value, MaxValue(entries));
    }
  }

  /** `key.replace(/_/g, ' ').toUpperCase()` */
  function FeatureLabel(key: string): (caption: string)
    ensures |caption| == |key|
    ensures '_' !in caption
    ensures forall i :: 0 <= i < |key| ==> (caption[i] == ' ' <==> key[i] == '_' || key[i] == ' ')
    ensures forall i :: 0 <= i < |caption| ==> !('a' <= caption[i] <= 'z')
    ensures forall i :: 0 <= i < |key| ==> caption[i] == (if key[i] == '_' then ' ' else UpperChar(key[i]))
  {
    ToUpper(seq(|key|, i requires 0 <= i < |key| => if key[i] == '_' then ' ' else key[i]))
  }

  // ---------------------------------------------------------------------------
  // The lookup

  const IdsRequired: string := "환자 ID와 입원번호를 모두 입력해주세요."
  const LookupFailed: string := "환자 정보를 불러오는데 실패했습니다. 다시 시도해주세요."

  /** The fields of the prediction answer the dashboard reads. */
  datatype PatientData = PatientData(severityScore: Option<real>, featureImportance: seq<Feature>,
                                     severityScoreSeries: SeriesInput)

  const LookupSuffix: string := "를 중증도를 예측해줘"

  /** The message the lookup sends: the ids as typed, untrimmed. */
  function LookupMessage(patientId: string, admissionId: string): (m: string)
    ensures StartsWith(m, "환자 " + patientId)
    ensures Contains(m, ", hadm " + admissionId)
    ensures |m| >= |LookupSuffix| && m[|m| - |LookupSuffix|..] == LookupSuffix
  {
    var head := "환자 " + patientId;
    var m := head + ", hadm " + admissionId + LookupSuffix;
    assert m[..|head|] == head;
    assert m[|head|..][..|", hadm " + admissionId|] == ", hadm " + admissionId;
    m
  }

  class PatientDashboard {
    var patientId: string
    var admissionId: string
    var patientData: Option<PatientData>
    var isLoading: bool
    var error: string

    constructor ()
      ensures patientId == "" && admissionId == "" && patientData.None? && !isLoading && error == ""
    {
      patientId := "";
      admissionId := "";
      patientData := None;
      isLoading := false;
      error := "";
    }

    /**
     * `fetchPatientData`. `outcome` is the parsed answer, None when the
     * request failed or answered non-ok. `request` is the message sent, None
     * when the guard stopped the lookup.
     */
    method FetchPatientData(outcome: Option<PatientData>) returns (request: Option<string>)
      modifies this
      ensures patientId == old(patientId) && admissionId == old(admissionId)
      ensures IsBlank(patientId) || IsBlank(admissionId) ==>
        && request == None && error == IdsRequired
        && patientData == old(patientData) && isLoading == old(isLoading)
      ensures !IsBlank(patientId) && !IsBlank(admissionId) ==>
        && request == Some(LookupMessage(patientId, admissionId))
        && !isLoading
        && (outcome.Some? ==> patientData == outcome && error == "")
        && (outcome.None? ==> patientData == old(patientData) && error == LookupFailed)
    {
      if IsBlank(patientId) || IsBlank(admissionId) {
        error := IdsRequired;
        return None;
      }
      isLoading := true;
      error := "";
      request := Some(LookupMessage(patientId, admissionId));
      if outcome.Some? {
        patientData := outcome;
      } else {
        error := LookupFailed;
      }
      isLoading := false;
    }
  }
}
