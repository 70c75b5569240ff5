/** The emotional-health report over one user's logs in the order they were
    made: the latest score and its label, the average, the trend, three
    insight sentences and a recommendation. */
module ReportGenerator {
  import opened Types
  import opened Numeric
  import MoodEmoji

  datatype Trend = Improving | Worsening | Stable

  /** Half-width of the band around the previous average that counts as no change. */
  const TrendBand: real := 0.5

  /** The three insight sentences: the current score with its label, the
      average score, and the fixed sentence that belongs to the trend. */
  datatype Insight =
    | CurrentScore(score: real, labelText: string)
    | AverageScore(average: real)
    | TrendRemark(trend: Trend)

  datatype Recommendation = DiscussChallenges | MaintainHabits

  datatype Report = Report(
    latestScore: real,
    averageScore: real,
    trend: Trend,
    insights: seq<Insight>,
    recommendation: Recommendation)

  function Scores(entries: seq<MoodEntry>): (s: seq<real>)
    ensures |s| == |entries|
    ensures forall i :: 0 <= i < |entries| ==> s[i] == entries[i].overallScore
  {
    seq(|entries|, i requires 0 <= i < |entries| => entries[i].overallScore)
  }

  /** The mean of every score but the last. */
  function PreviousAverage(scores: seq<real>): real
    requires |scores| >= 2
  {
    Mean(scores[..|scores| - 1])
  }

  /** The trend of a latest score against the previous average: a change
      counts only when it leaves the band strictly. */
  function ClassifyTrend(latest: real, previousAvg: real): (t: Trend)
    ensures t == Improving <==> latest > previousAvg + TrendBand
    ensures t == Worsening <==> latest < previousAvg - TrendBand
    ensures t == Stable <==> previousAvg - TrendBand <= latest <= previousAvg + TrendBand
  {
    if latest > previousAvg + TrendBand then Improving
    else if latest < previousAvg - TrendBand then Worsening
    else Stable
  }

  /** The trend of a list of scores: a single score is stable, and
      otherwise the latest score leaves the band around the mean of the
      others upwards (improving), downwards (worsening) or not at all. */
  function TrendOf(scores: seq<real>): (t: Trend)
    requires scores != []
    ensures |scores| == 1 ==> t == Stable
    ensures |scores| >= 2 ==>
      var latest := scores[|scores| - 1];
      var previousAvg := Mean(scores[..|scores| - 1]);
      && (t == Improving <==> latest > previousAvg + TrendBand)
      && (t == Worsening <==> latest < previousAvg - TrendBand)
  {
    if |scores| == 1 then Stable
    else ClassifyTrend(scores[|scores| - 1], PreviousAverage(scores))
  }

  /** `getMoodLabel`: five bands, each closed below. */
  function MoodLabel(score: real): (name: string)
    ensures name == "great" <==> 8.0 <= score
    ensures name == "good" <==> 6.0 <= score < 8.0
    ensures name == "okay" <==> 4.0 <= score < 6.0
    ensures name == "bad" <==> 2.0 <= score < 4.0
    ensures name == "terrible" <==> score < 2.0
  {
    if score >= 8.0 then "great"
    else if score >= 6.0 then "good"
    else if score >= 4.0 then "okay"
    else if score >= 2.0 then "bad"
    else "terrible"
  }

  /** The position of a label from "terrible" (0) to "great" (4). */
  function LabelRank(name: string): int
  {
    if name == "great" then 4
    else if name == "good" then 3
    else if name == "okay" then 2
    else if name == "bad" then 1
    else 0
  }

  /** The three insights in the order shown: the current score with its
      label, the average, and the remark for the trend. */
  function Insights(latest: real, average: real, trend: Trend): (insights: seq<Insight>)
    ensures |insights| == 3
    ensures insights[0].CurrentScore? && insights[0].score == latest && insights[0].labelText == MoodLabel(latest)
    ensures insights[1].AverageScore? && insights[1].average == average
    ensures insights[2].TrendRemark? && insights[2].trend == trend
  {
    [CurrentScore(latest, MoodLabel(latest)), AverageScore(average)] + [TrendRemark(trend)]
  }

  /** Challenges are recommended for discussion exactly when the trend is
      worsening; every other trend gets the advice to keep the habits. */
  function RecommendationFor(trend: Trend): (r: Recommendation)
    ensures r == DiscussChallenges <==> trend == Worsening
    ensures r == MaintainHabits <==> trend != Worsening
  {
    if trend == Worsening then DiscussChallenges else MaintainHabits
  }

  /** The report; nothing is produced for an empty list. */
  function GenerateReport(entries: seq<MoodEntry>): (r: Option<Report>)
    ensures r.None? <==> entries == []
    ensures r.Some? ==>
      && r.value.latestScore == entries[|entries| - 1].overallScore
      && r.value.averageScore == RoundTenth(Mean(Scores(entries)))
      && r.value.trend == TrendOf(Scores(entries))
      && |r.value.insights| == 3
      && r.value.insights[0] == CurrentScore(r.value.latestScore, MoodLabel(r.value.latestScore))
      && r.value.insights[1] == AverageScore(r.value.averageScore)
      && r.value.insights[2] == TrendRemark(r.value.trend)
      && (r.value.recommendation == DiscussChallenges <==> r.value.trend == Worsening)
  {
    if entries == [] then None
    else
      var scores := Scores(entries);
      var latest := entries[|entries| - 1].overallScore;
      var average := RoundTenth(Mean(scores));
      var trend := TrendOf(scores);
      Some(Report(latest, average, trend, Insights(latest, average, trend), RecommendationFor(trend)))
  }

  /** With one log the trend is stable. */
  lemma SingleEntryIsStable(e: MoodEntry)
    ensures GenerateReport([e]).value.trend == Stable
  {
  }

  /** Exactly one trend holds, and which one is decided by the strict band
      around the average of all logs but the latest. */
  lemma TrendTrichotomy(entries: seq<MoodEntry>)
    requires |entries| >= 2
    ensures var scores := Scores(entries);
      var latest := entries[|entries| - 1].overallScore;
      var prev := PreviousAverage(scores);
      var t := GenerateReport(entries).value.trend;
      && (t == Improving <==> latest > prev + 0.5)
      && (t == Worsening <==> latest < prev - 0.5)
      && (t == Stable <==> !(latest > prev + 0.5) && !(latest < prev - 0.5))
  {
  }

  /** The average lies between the lowest and the highest score before
      rounding, and rounding keeps it within 0.05 of the exact mean. */
  lemma AverageWithinScores(entries: seq<MoodEntry>)
    requires entries != []
    ensures var scores := Scores(entries);
      && Min(scores) <= Mean(scores) <= Max(scores)
      && Mean(scores) - 0.05 < GenerateReport(entries).value.averageScore <= Mean(scores) + 0.05
  {
    MeanBetweenExtremes(Scores(entries));
  }

  /** Scores on the 0..10 scale give an average on the same scale. */
  lemma AverageOnScale(entries: seq<MoodEntry>)
    requires entries != []
    requires forall i :: 0 <= i < |entries| ==> 0.0 <= entries[i].overallScore <= 10.0
    ensures 0.0 <= GenerateReport(entries).value.averageScore <= 10.0
  {
    var scores := Scores(entries);
    MeanBounds(scores, 0.0, 10.0);
    RoundTenthWithin(Mean(scores), 0, 10);
  }

  /** A higher score never gets a lower label. */
  lemma MoodLabelMonotone(x: real, y: real)
    requires x <= y
    ensures LabelRank(MoodLabel(x)) <= LabelRank(MoodLabel(y))
  {
  }

  /** The emoji's label is the report's label, capitalised. */
  lemma LabelsAgreeWithEmoji(score: real)
    ensures var info := MoodEmoji.GetMoodInfo(score).labelText;
      var name := MoodLabel(score);
      |info| == |name| > 0 && info[1..] == name[1..] && Upper(name[0]) == info[0]
  {
  }

  function Upper(c: char): char
  {
    if 'a' <= c <= 'z' then (c as int - 'a' as int + 'A' as int) as char else c
  }

  /** The boundary cases: each band includes its lower bound. A score of 1.9
      is below the lowest bound and is "terrible". */
  lemma MoodLabelBoundaries()
    ensures MoodLabel(8.0) == "great"
    ensures MoodLabel(7.9) == "good"
    ensures MoodLabel(6.0) == "good"
    ensures MoodLabel(4.0) == "okay"
    ensures MoodLabel(2.0) == "bad"
    ensures MoodLabel(1.9) == "terrible"
    ensures MoodLabel(0.0) == "terrible"
  {
  }

  /** Against a previous average of 5.0: 5.6 improves, 4.4 worsens, and 5.4,
      4.6 and the exact boundaries 5.5 and 4.5 are stable. */
  lemma TrendExamples()
    ensures TrendOf([5.0, 5.6]) == Improving
    ensures TrendOf([5.0, 5.4]) == Stable
    ensures TrendOf([5.0, 5.5]) == Stable
    ensures TrendOf([5.0, 4.4]) == Worsening
    ensures TrendOf([5.0, 4.6]) == Stable
    ensures TrendOf([5.0, 4.5]) == Stable
    ensures TrendOf([4.0, 6.0, 5.6]) == Improving
  {
    assert [5.0, 5.6][..1] == [5.0];
    assert [5.0, 5.4][..1] == [5.0];
    assert [5.0, 5.5][..1] == [5.0];
    assert [5.0, 4.4][..1] == [5.0];
    assert [5.0, 4.6][..1] == [5.0];
    assert [5.0, 4.5][..1] == [5.0];
    assert [5.0][..0] == [];
    assert [4.0, 6.0, 5.6][..2] == [4.0, 6.0];
    assert [4.0, 6.0][..1] == [4.0];
    assert [4.0][..0] == [];
  }

  /** Appending a log makes it the one the report describes. */
  lemma ReportDescribesNewestEntry(entries: seq<MoodEntry>, e: MoodEntry)
    ensures GenerateReport(entries + [e]).Some?
    ensures GenerateReport(entries + [e]).value.latestScore == e.overallScore
  {
  }
}
