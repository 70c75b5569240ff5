/** The main page: the list of logs and the selected tab. Submitting a log
    appends it and opens the insights; opening the history or the insights
    with no logs fills the list with a week of random sample logs. */
module IndexPage {
  import opened Types
  import opened Numeric

  datatype Tab = Track | History | Insights

  /** The number of sample logs, one per day from six days ago to today. */
  const SampleDays: nat := 7

  /** The random numbers one sample log draws: its score, then one per answer. */
  const DrawsPerEntry: nat := 1 + QuestionCount

  /** The random numbers the whole sample draws, in the order they are drawn. */
  const SampleDraws: nat := SampleDays * DrawsPerEntry

  /** A value `3 + r * 5` for a draw `r`: from 3 up to (not including) 8. */
  function Scaled(r: real): real
  {
    3.0 + r * 5.0
  }

  /** Every draw of `Math.random` lies in [0, 1). */
  ghost predicate UnitDraws(draws: seq<real>)
  {
    forall i :: 0 <= i < |draws| ==> 0.0 <= draws[i] < 1.0
  }

  /** The k-th sample log (k = 0 is the oldest): dated 6 - k days before
      `today`, its score drawn first and rounded to one decimal, then one
      unrounded draw per answer. */
  function SampleEntry(today: Timestamp, k: nat, draws: seq<real>): (e: MoodEntry)
    requires k < SampleDays && |draws| == SampleDraws
    ensures WellFormedAnswers(e.answers) && e.triggers == None
    ensures e.date + (SampleDays - 1 - k) * MsPerDay == today
    ensures (e.overallScore * 10.0).Floor as real == e.overallScore * 10.0
    ensures Scaled(draws[k * DrawsPerEntry]) - 0.05 < e.overallScore <= Scaled(draws[k * DrawsPerEntry]) + 0.05
  {
    var base := k * DrawsPerEntry;
    MoodEntry(
      today - (SampleDays - 1 - k) * MsPerDay,
      seq(QuestionCount, idx requires 0 <= idx < QuestionCount => Answer(idx + 1, Scaled(draws[base + 1 + idx]))),
      RoundTenth(Scaled(draws[base])),
      None)
  }

  /** The whole sample, oldest first. */
  function SampleData(today: Timestamp, draws: seq<real>): (sample: seq<MoodEntry>)
    requires |draws| == SampleDraws
    ensures |sample| == SampleDays
    ensures forall k :: 0 <= k < SampleDays ==> sample[k] == SampleEntry(today, k, draws)
  {
    seq(SampleDays, k requires 0 <= k < SampleDays => SampleEntry(today, k, draws))
  }

  /** The loop of `generateSampleData`: `i` counts down from 6 to 0, and each
      pass pushes the log dated `i` days before today. */
  method BuildSampleData(today: Timestamp, draws: seq<real>) returns (sample: seq<MoodEntry>)
    requires |draws| == SampleDraws
    ensures sample == SampleData(today, draws)
  {
    sample := [];
    var i: int := SampleDays - 1;
    while i >= 0
      invariant -1 <= i < SampleDays
      invariant |sample| == SampleDays - 1 - i
      invariant forall k :: 0 <= k < |sample| ==> sample[k] == SampleEntry(today, k, draws)
    {
      var k := SampleDays - 1 - i;
      var score := Scaled(draws[k * DrawsPerEntry]);
      var answers := seq(QuestionCount, idx requires 0 <= idx < QuestionCount =>
        Answer(idx + 1, Scaled(draws[k * DrawsPerEntry + 1 + idx])));
      sample := sample + [MoodEntry(today - i * MsPerDay, answers, RoundTenth(score), None)];
      i := i - 1;
    }
  }

  /** The sample has seven logs one day apart ending today, each with the five
      answers of a complete log; with draws in [0, 1) every answer and every
      score lies in [3, 8]. */
  lemma SampleDataShape(today: Timestamp, draws: seq<real>)
    requires |draws| == SampleDraws
    ensures var sample := SampleData(today, draws);
      && |sample| == 7
      && sample[6].date == today
      && (forall k :: 0 <= k < 6 ==> sample[k + 1].date == sample[k].date + MsPerDay)
      && (forall k :: 0 <= k < 7 ==> WellFormedAnswers(sample[k].answers) && sample[k].triggers == None)
    ensures UnitDraws(draws) ==> forall k :: 0 <= k < 7 ==> InSampleRange(SampleData(today, draws)[k])
  {
    var sample := SampleData(today, draws);
    if UnitDraws(draws) {
      forall k | 0 <= k < 7
        ensures InSampleRange(sample[k])
      {
        SampleEntryInRange(today, k, draws);
      }
    }
  }

  ghost predicate InSampleRange(e: MoodEntry)
  {
    && 3.0 <= e.overallScore <= 8.0
    && forall i :: 0 <= i < |e.answers| ==> 3.0 <= e.answers[i].value <= 8.0
  }

  lemma SampleEntryInRange(today: Timestamp, k: nat, draws: seq<real>)
    requires k < SampleDays && |draws| == SampleDraws && UnitDraws(draws)
    ensures InSampleRange(SampleEntry(today, k, draws))
  {
    var base := k * DrawsPerEntry;
    assert base + DrawsPerEntry <= SampleDraws;
    var e := SampleEntry(today, k, draws);
    forall i | 0 <= i < |e.answers|
      ensures 3.0 <= e.answers[i].value <= 8.0
    {
      assert e.answers[i].value == Scaled(draws[base + 1 + i]);
    }
    RoundTenthWithin(Scaled(draws[base]), 3, 8);
  }

  /** What the sample guard leaves: the logs unchanged when there are any,
      the sample otherwise. */
  function AfterSampleGuard(entries: seq<MoodEntry>, today: Timestamp, draws: seq<real>): (after: seq<MoodEntry>)
    requires |draws| == SampleDraws
    ensures after != []
    ensures entries != [] ==> after == entries
    ensures entries == [] ==> after == SampleData(today, draws)
  {
    if |entries| == 0 then SampleData(today, draws) else entries
  }

  /** After the guard the list is never empty, so a second guard changes nothing. */
  lemma SampleGuardIdempotent(entries: seq<MoodEntry>, today: Timestamp, draws: seq<real>,
                              later: Timestamp, moreDraws: seq<real>)
    requires |draws| == SampleDraws && |moreDraws| == SampleDraws
    ensures AfterSampleGuard(entries, today, draws) != []
    ensures entries != [] ==> AfterSampleGuard(entries, today, draws) == entries
    ensures var once := AfterSampleGuard(entries, today, draws);
      AfterSampleGuard(once, later, moreDraws) == once
  {
    assert |SampleData(today, draws)| == SampleDays;
  }

  /** The state of the page: its logs, oldest first, and the open tab. */
  class MoodTracker {
    var moodEntries: seq<MoodEntry>
    var activeTab: Tab

    constructor ()
      ensures moodEntries == [] && activeTab == Track
    {
      moodEntries := [];
      activeTab := Track;
    }

    /** The submitted log goes at the end and the insights tab opens. */
    method HandleMoodSubmit(entry: MoodEntry)
      modifies this
      ensures moodEntries == old(moodEntries) + [entry]
      ensures activeTab == Insights
    {
      moodEntries := moodEntries + [entry];
      activeTab := Insights;
    }

    /** Fills an empty list with the sample; a list with logs is left alone. */
    method GenerateSampleData(today: Timestamp, draws: seq<real>)
      requires |draws| == SampleDraws
      modifies this
      ensures moodEntries == AfterSampleGuard(old(moodEntries), today, draws)
      ensures activeTab == old(activeTab)
    {
      if |moodEntries| == 0 {
        var sample := BuildSampleData(today, draws);
        moodEntries := sample;
      }
    }

    /** A tab trigger: it opens its tab, and the history and insights
        triggers also run the sample guard. */
    method SelectTab(tab: Tab, today: Timestamp, draws: seq<real>)
      requires |draws| == SampleDraws
      modifies this
      ensures activeTab == tab
      ensures tab == Track ==> moodEntries == old(moodEntries)
      ensures tab != Track ==> moodEntries == AfterSampleGuard(old(moodEntries), today, draws)
    {
      if tab != Track {
        GenerateSampleData(today, draws);
      }
      activeTab := tab;
    }
  }

  /** Two logs submitted on a fresh page are kept in the order submitted,
      and a later visit to the history adds no sample. */
  method SubmitTwiceThenHistory(a: MoodEntry, b: MoodEntry, today: Timestamp, draws: seq<real>)
      returns (entries: seq<MoodEntry>, tab: Tab)
    requires |draws| == SampleDraws
    ensures entries == [a, b] && tab == History
  {
    var page := new MoodTracker();
    page.HandleMoodSubmit(a);
    page.HandleMoodSubmit(b);
    page.SelectTab(History, today, draws);
    entries, tab := page.moodEntries, page.activeTab;
  }
}
