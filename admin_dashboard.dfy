/** The staff overview: per-user statistics over every user's sheet rows,
    journal entries and thought records, and which user cards are shown. */
module AdminDashboard {
  import opened Types
  import opened Numeric
  import opened Seqs
  import opened GoogleSheets

  datatype User = User(username: string, fullName: string, role: string)

  /** When the next log is due: today when there is none yet, otherwise the
      day (a day number) after the latest one. */
  datatype NextDue = Today | DueOn(day: int)

  /** One trigger name with the number of times it was recorded. */
  datatype TriggerCount = TriggerCount(name: string, count: nat)

  /** What `getUserStats` returns for a user with some activity. `avgScore`
      is None where the dashboard shows "N/A". */
  datatype UserStats = UserStats(
    daysRecorded: nat,
    avgScore: Option<real>,
    lastMoodEntry: Option<SheetRow>,
    lastJournal: Option<JournalEntry>,
    lastThought: Option<ThoughtRecord>,
    journalCount: nat,
    thoughtCount: nat,
    topTriggers: seq<string>,
    nextDue: NextDue,
    allMoods: seq<MoodEntry>,
    allJournals: seq<JournalEntry>,
    allThoughts: seq<ThoughtRecord>)

  function RowOwner(r: SheetRow): string { r.username }
  function JournalOwner(j: JournalEntry): string { j.username }
  function ThoughtOwner(t: ThoughtRecord): string { t.username }

  /** Sort keys: moods oldest first, journals and thought records newest first. */
  function RowTime(r: SheetRow): int { r.date }
  function JournalAge(j: JournalEntry): int { -j.date }
  function ThoughtAge(t: ThoughtRecord): int { -t.date }

  function RowScore(r: SheetRow): real { r.overallScore }

  // ---------------------------------------------------------------------
  // Trigger frequencies

  /** Every trigger of every row, row by row, each row's column split on
      ", ": a name is listed exactly when some row's column holds it. */
  function AllTriggers(rows: seq<SheetRow>): (all: seq<string>)
    ensures forall t :: t in all <==> exists i :: 0 <= i < |rows| && t in ReadTriggers(rows[i].triggers)
  {
    if rows == [] then []
    else
      var n := |rows| - 1;
      var front := AllTriggers(rows[..n]);
      var all := front + ReadTriggers(rows[n].triggers);
      AllTriggersStep(rows, rows[..n], front, all);
      all
  }

  /** The step of `AllTriggers`: the last row's triggers join those of the others. */
  lemma AllTriggersStep(rows: seq<SheetRow>, others: seq<SheetRow>, front: seq<string>, all: seq<string>)
    requires rows != [] && others == rows[..|rows| - 1]
    requires forall t :: t in front <==> exists i :: 0 <= i < |others| && t in ReadTriggers(others[i].triggers)
    requires all == front + ReadTriggers(rows[|rows| - 1].triggers)
    ensures forall t :: t in all <==> exists i :: 0 <= i < |rows| && t in ReadTriggers(rows[i].triggers)
  {
    var n := |rows| - 1;
    forall t | t in all
      ensures exists i :: 0 <= i < |rows| && t in ReadTriggers(rows[i].triggers)
    {
      if t in front {
        var i :| 0 <= i < n && t in ReadTriggers(others[i].triggers);
        assert others[i] == rows[i];
      } else {
        assert t in ReadTriggers(rows[n].triggers);
      }
    }
    forall t, i | 0 <= i < |rows| && t in ReadTriggers(rows[i].triggers)
      ensures t in all
    {
      if i < n {
        assert others[i] == rows[i];
        assert t in front;
      }
    }
  }

  function Occurrences(xs: seq<string>, t: string): nat
  {
    if xs == [] then 0
    else Occurrences(xs[..|xs| - 1], t) + (if xs[|xs| - 1] == t then 1 else 0)
  }

  /** The distinct names of `xs` in the order they first occur: the key order
      of an object that gains a key on its first assignment. */
  function FirstSeen(xs: seq<string>): (r: seq<string>)
    ensures Distinct(r)
    ensures forall t :: t in r <==> t in xs
  {
    if xs == [] then []
    else
      var prev := FirstSeen(xs[..|xs| - 1]);
      var x := xs[|xs| - 1];
      assert xs == xs[..|xs| - 1] + [x];
      if x in prev then prev else prev + [x]
  }

  /** The trigger map's contents: the map itself and its key order. */
  ghost predicate CountsOf(counts: map<string, nat>, order: seq<string>, xs: seq<string>)
  {
    && order == FirstSeen(xs)
    && (forall t :: t in counts <==> t in order)
    && (forall t :: t in counts ==> counts[t] == Occurrences(xs, t))
  }

  lemma {:induction false} OccurrencesAbsent(xs: seq<string>, t: string)
    requires t !in xs
    ensures Occurrences(xs, t) == 0
    decreases |xs|
  {
    if xs != [] {
      assert xs[..|xs| - 1] <= xs;
      OccurrencesAbsent(xs[..|xs| - 1], t);
    }
  }

  /** Counting a trigger already in the map adds one to its count. */
  lemma CountExisting(counts: map<string, nat>, order: seq<string>, xs: seq<string>, t: string)
    requires CountsOf(counts, order, xs) && t in counts
    ensures CountsOf(counts[t := counts[t] + 1], order, xs + [t])
  {
    var ys := xs + [t];
    assert ys[..|ys| - 1] == xs;
  }

  /** Counting a new trigger adds it with count 1 at the end of the key order. */
  lemma CountNew(counts: map<string, nat>, order: seq<string>, xs: seq<string>, t: string)
    requires CountsOf(counts, order, xs) && t !in counts
    ensures CountsOf(counts[t := 1], order + [t], xs + [t])
  {
    var ys := xs + [t];
    assert ys[..|ys| - 1] == xs;
    OccurrencesAbsent(xs, t);
  }

  /** The inner `forEach`: one row's triggers added to the map. */
  method CountRow(counts0: map<string, nat>, order0: seq<string>, triggers: seq<string>, ghost seen: seq<string>)
    returns (counts: map<string, nat>, order: seq<string>)
    requires CountsOf(counts0, order0, seen)
    ensures CountsOf(counts, order, seen + triggers)
  {
    counts, order := counts0, order0;
    var j := 0;
    assert seen + triggers[..0] == seen;
    while j < |triggers|
      invariant 0 <= j <= |triggers|
      invariant CountsOf(counts, order, seen + triggers[..j])
      decreases |triggers| - j
    {
      var t := triggers[j];
      ghost var counted := seen + triggers[..j];
      assert seen + triggers[..j + 1] == counted + [t];
      if t in counts {
        CountExisting(counts, order, counted, t);
        counts := counts[t := counts[t] + 1];
      } else {
        CountNew(counts, order, counted, t);
        counts := counts[t := 1];
        order := order + [t];
      }
      j := j + 1;
    }
    assert triggers[..j] == triggers;
  }

  /** The outer `forEach` over the user's rows that fills `triggerMap`: a
      missing key starts at 0 and every occurrence adds 1. */
  method CountTriggers(rows: seq<SheetRow>) returns (counts: map<string, nat>, order: seq<string>)
    ensures order == FirstSeen(AllTriggers(rows))
    ensures forall t :: t in counts <==> t in AllTriggers(rows)
    ensures forall t :: t in counts ==> counts[t] == Occurrences(AllTriggers(rows), t)
  {
    counts := map[];
    order := [];
    var i := 0;
    while i < |rows|
      invariant 0 <= i <= |rows|
      invariant CountsOf(counts, order, AllTriggers(rows[..i]))
      decreases |rows| - i
    {
      assert rows[..i + 1][..i] == rows[..i];
      assert AllTriggers(rows[..i + 1]) == AllTriggers(rows[..i]) + ReadTriggers(rows[i].triggers);
      counts, order := CountRow(counts, order, ReadTriggers(rows[i].triggers), AllTriggers(rows[..i]));
      i := i + 1;
    }
    assert rows[..i] == rows;
  }

  /** The trigger counts of a list of rows, in key order: the reference the
      counting loop is proved against. */
  function TriggerEntries(rows: seq<SheetRow>): seq<TriggerCount>
  {
    var all := AllTriggers(rows);
    var names := FirstSeen(all);
    seq(|names|, i requires 0 <= i < |names| => TriggerCount(names[i], Occurrences(all, names[i])))
  }

  /** `Object.entries(triggerMap)`: one pair per key, in key order, each with
      the key's count. */
  function ObjectEntries(counts: map<string, nat>, order: seq<string>): (entries: seq<TriggerCount>)
    ensures |entries| == |order|
    ensures forall i :: 0 <= i < |order| ==> entries[i].name == order[i]
    ensures forall i :: 0 <= i < |order| && order[i] in counts ==> entries[i].count == counts[order[i]]
  {
    seq(|order|, i requires 0 <= i < |order| =>
      TriggerCount(order[i], if order[i] in counts then counts[order[i]] else 0))
  }

  function EntryName(e: TriggerCount): string { e.name }

  /** The comparator `(a, b) => b[1] - a[1]`: descending by count. */
  function ByCountDesc(e: TriggerCount): int { -(e.count as int) }

  function Ranked(entries: seq<TriggerCount>): seq<TriggerCount>
  {
    SortBy(entries, ByCountDesc)
  }

  /** At most three triggers are shown. */
  const TopTriggerCount: nat := 3

  function TopLength(n: nat): nat
  {
    if n < TopTriggerCount then n else TopTriggerCount
  }

  /** The names of the first three entries after the descending sort. */
  function TopTriggers(entries: seq<TriggerCount>): (top: seq<string>)
    ensures |top| == TopLength(|entries|) <= TopTriggerCount
  {
    var ranked := Ranked(entries);
    Map(ranked[..TopLength(|ranked|)], EntryName)
  }

  // ---------------------------------------------------------------------
  // The statistics

  /** `setDate(getDate() + 1)` on the date of `t`, as a day number. */
  function DayAfter(t: Timestamp): int
  {
    DayOf(t) + 1
  }

  function NextDueAfter(last: Option<SheetRow>): NextDue
  {
    match last
    case None => Today
    case Some(row) => DueOn(DayAfter(row.date))
  }

  function UserRows(u: string, rows: seq<SheetRow>): seq<SheetRow>
  {
    FilterByOwner(rows, RowOwner, u)
  }

  function UserJournals(u: string, journals: seq<JournalEntry>): seq<JournalEntry>
  {
    FilterByOwner(journals, JournalOwner, u)
  }

  function UserThoughts(u: string, thoughts: seq<ThoughtRecord>): seq<ThoughtRecord>
  {
    FilterByOwner(thoughts, ThoughtOwner, u)
  }

  function SortedMoods(u: string, rows: seq<SheetRow>): seq<SheetRow>
  {
    SortBy(UserRows(u, rows), RowTime)
  }

  function SortedJournals(u: string, journals: seq<JournalEntry>): seq<JournalEntry>
  {
    SortBy(UserJournals(u, journals), JournalAge)
  }

  function SortedThoughts(u: string, thoughts: seq<ThoughtRecord>): seq<ThoughtRecord>
  {
    SortBy(UserThoughts(u, thoughts), ThoughtAge)
  }

  function Last<T>(s: seq<T>): Option<T>
  {
    if |s| > 0 then Some(s[|s| - 1]) else None
  }

  function First<T>(s: seq<T>): Option<T>
  {
    if |s| > 0 then Some(s[0]) else None
  }

  /** `avgScore`: "N/A" (None) exactly when there are no rows, and otherwise
      a whole number of tenths no further than 0.05 outside the range of the
      scores. */
  function AverageScore(userRows: seq<SheetRow>): (avg: Option<real>)
    ensures avg.None? <==> userRows == []
    ensures avg.Some? ==> (avg.value * 10.0).Floor as real == avg.value * 10.0
    ensures avg.Some? ==>
      Min(Map(userRows, RowScore)) - 0.05 < avg.value <= Max(Map(userRows, RowScore)) + 0.05
  {
    if |userRows| > 0 then
      MeanBetweenExtremes(Map(userRows, RowScore));
      Some(RoundTenth(Mean(Map(userRows, RowScore))))
    else None
  }

  /** The user has a mood row, a journal or a thought record. */
  function HasActivity(u: string, rows: seq<SheetRow>, journals: seq<JournalEntry>,
                       thoughts: seq<ThoughtRecord>): bool
  {
    |UserRows(u, rows)| > 0 || |UserJournals(u, journals)| > 0 || |UserThoughts(u, thoughts)| > 0
  }

  /** The record `getUserStats` builds for a user with activity. */
  function Stats(u: string, rows: seq<SheetRow>, journals: seq<JournalEntry>,
                 thoughts: seq<ThoughtRecord>): (s: UserStats)
    ensures s.daysRecorded == |s.allMoods| && s.journalCount == |s.allJournals| && s.thoughtCount == |s.allThoughts|
    ensures s.avgScore.None? <==> s.daysRecorded == 0
    ensures s.lastMoodEntry.None? <==> s.daysRecorded == 0
    ensures s.nextDue == Today <==> s.daysRecorded == 0
    ensures s.lastJournal.None? <==> s.journalCount == 0
    ensures s.lastThought.None? <==> s.thoughtCount == 0
    ensures |s.topTriggers| <= TopTriggerCount
  {
    UserStats(
      |UserRows(u, rows)|,
      AverageScore(UserRows(u, rows)),
      Last(SortedMoods(u, rows)),
      First(SortedJournals(u, journals)),
      First(SortedThoughts(u, thoughts)),
      |UserJournals(u, journals)|,
      |UserThoughts(u, thoughts)|,
      TopTriggers(TriggerEntries(UserRows(u, rows))),
      NextDueAfter(Last(SortedMoods(u, rows))),
      MapRows(SortedMoods(u, rows)),
      SortedJournals(u, journals),
      SortedThoughts(u, thoughts))
  }

  /** The statistics of one user, or None when the user has no activity. */
  function ExpectedStats(u: string, rows: seq<SheetRow>, journals: seq<JournalEntry>,
                         thoughts: seq<ThoughtRecord>): (stats: Option<UserStats>)
    ensures stats.None? <==>
      && (forall i :: 0 <= i < |rows| ==> rows[i].username != u)
      && (forall i :: 0 <= i < |journals| ==> journals[i].username != u)
      && (forall i :: 0 <= i < |thoughts| ==> thoughts[i].username != u)
    ensures stats.Some? ==> stats.value == Stats(u, rows, journals, thoughts)
  {
    NoActivityIff(u, rows, journals, thoughts);
    if HasActivity(u, rows, journals, thoughts) then Some(Stats(u, rows, journals, thoughts)) else None
  }

  /** The entries of a map filled by `CountTriggers` are the reference counts. */
  lemma EntriesOfCounts(counts: map<string, nat>, order: seq<string>, rows: seq<SheetRow>)
    requires order == FirstSeen(AllTriggers(rows))
    requires forall t :: t in counts <==> t in AllTriggers(rows)
    requires forall t :: t in counts ==> counts[t] == Occurrences(AllTriggers(rows), t)
    ensures ObjectEntries(counts, order) == TriggerEntries(rows)
  {
  }

  /** `Object.entries(triggerMap).sort(...).slice(0, 3).map(...)` over the
      map the rows fill. */
  method TopTriggersOf(userRows: seq<SheetRow>) returns (top: seq<string>)
    ensures top == TopTriggers(TriggerEntries(userRows))
  {
    var counts, order := CountTriggers(userRows);
    var entries := ObjectEntries(counts, order);
    EntriesOfCounts(counts, order, userRows);
    top := TopTriggers(entries);
  }

  /** `nextDue`: today, moved to the day after the latest log when there is one. */
  method NextDueOf(lastMoodEntry: Option<SheetRow>) returns (nextDue: NextDue)
    ensures nextDue == NextDueAfter(lastMoodEntry)
  {
    nextDue := Today;
    if lastMoodEntry.Some? {
      nextDue := DueOn(DayAfter(lastMoodEntry.value.date));
    }
  }

  /** `getUserStats`: filter, sort, count the triggers in a loop over a
      mutable map, then pick the due date. */
  method GetUserStats(u: string, rows: seq<SheetRow>, journals: seq<JournalEntry>,
                      thoughts: seq<ThoughtRecord>) returns (stats: Option<UserStats>)
    ensures stats == ExpectedStats(u, rows, journals, thoughts)
  {
    var userRows := UserRows(u, rows);
    var userJournals := UserJournals(u, journals);
    var userThoughts := UserThoughts(u, thoughts);
    var daysRecorded := |userRows|;
    if daysRecorded == 0 && |userJournals| == 0 && |userThoughts| == 0 {
      return None;
    }
    var sortedMoods := SortedMoods(u, rows);
    var lastMoodEntry := Last(sortedMoods);
    var sortedJournals := SortedJournals(u, journals);
    var lastJournal := First(sortedJournals);
    var sortedThoughts := SortedThoughts(u, thoughts);
    var lastThought := First(sortedThoughts);
    var avgScore := if daysRecorded > 0 then Some(RoundTenth(Mean(Map(userRows, RowScore)))) else None;

    var topTriggers := TopTriggersOf(userRows);

    var nextDue := NextDueOf(lastMoodEntry);

    stats := Some(UserStats(daysRecorded, avgScore, lastMoodEntry, lastJournal, lastThought,
      |userJournals|, |userThoughts|, topTriggers, nextDue,
      MapRows(sortedMoods), sortedJournals, sortedThoughts));
  }

  /** A user's card is shown when the user has statistics or is an admin. */
  function CardVisible(user: User, rows: seq<SheetRow>, journals: seq<JournalEntry>,
                       thoughts: seq<ThoughtRecord>): (visible: bool)
    ensures visible <==>
      || user.role == "admin"
      || (exists i :: 0 <= i < |rows| && rows[i].username == user.username)
      || (exists i :: 0 <= i < |journals| && journals[i].username == user.username)
      || (exists i :: 0 <= i < |thoughts| && thoughts[i].username == user.username)
  {
    NoActivityIff(user.username, rows, journals, thoughts);
    HasActivity(user.username, rows, journals, thoughts) || user.role == "admin"
  }

  // ---------------------------------------------------------------------
  // Properties

  /** No activity exactly when the user has no row, no journal and no
      thought record; user names are compared exactly. */
  lemma NoActivityIff(u: string, rows: seq<SheetRow>, journals: seq<JournalEntry>, thoughts: seq<ThoughtRecord>)
    ensures !HasActivity(u, rows, journals, thoughts) <==>
      && (forall i :: 0 <= i < |rows| ==> rows[i].username != u)
      && (forall i :: 0 <= i < |journals| ==> journals[i].username != u)
      && (forall i :: 0 <= i < |thoughts| ==> thoughts[i].username != u)
  {
    FilterEmptyIff(rows, RowOwner, u);
    FilterEmptyIff(journals, JournalOwner, u);
    FilterEmptyIff(thoughts, ThoughtOwner, u);
  }

  /** The counts are those of the user's own records, and each count agrees
      with the length of the list it counts. */
  lemma CountsMatch(u: string, rows: seq<SheetRow>, journals: seq<JournalEntry>, thoughts: seq<ThoughtRecord>)
    ensures var s := Stats(u, rows, journals, thoughts);
      && s.daysRecorded == |s.allMoods| == |UserRows(u, rows)|
      && s.journalCount == |s.allJournals| == |UserJournals(u, journals)|
      && s.thoughtCount == |s.allThoughts| == |UserThoughts(u, thoughts)|
  {
    assert |SortedMoods(u, rows)| == |UserRows(u, rows)|;
  }

  /** Each listed record belongs to the user and comes from the input, and
      each of the user's records is listed as often as it occurs in the input. */
  lemma ListsMatch(u: string, rows: seq<SheetRow>, journals: seq<JournalEntry>, thoughts: seq<ThoughtRecord>)
    ensures forall r :: r in SortedMoods(u, rows) ==> r.username == u && r in rows
    ensures forall j :: j in SortedJournals(u, journals) ==> j.username == u && j in journals
    ensures forall t :: t in SortedThoughts(u, thoughts) ==> t.username == u && t in thoughts
    ensures forall r: SheetRow :: r.username == u ==> multiset(SortedMoods(u, rows))[r] == multiset(rows)[r]
    ensures forall j: JournalEntry :: j.username == u ==> multiset(SortedJournals(u, journals))[j] == multiset(journals)[j]
    ensures forall t: ThoughtRecord :: t.username == u ==> multiset(SortedThoughts(u, thoughts))[t] == multiset(thoughts)[t]
  {
    FilterSortMembers(rows, RowOwner, u, RowTime);
    FilterSortMembers(journals, JournalOwner, u, JournalAge);
    FilterSortMembers(thoughts, ThoughtOwner, u, ThoughtAge);
  }

  /** The mood rows are the user's rows reordered oldest first, and the logs
      built from them keep that order. */
  lemma MoodsSorted(u: string, rows: seq<SheetRow>, journals: seq<JournalEntry>, thoughts: seq<ThoughtRecord>)
    ensures var sorted := SortedMoods(u, rows);
      && multiset(sorted) == multiset(UserRows(u, rows))
      && (forall i, j :: 0 <= i < j < |sorted| ==> sorted[i].date <= sorted[j].date)
    ensures var moods := Stats(u, rows, journals, thoughts).allMoods;
      forall i, j :: 0 <= i < j < |moods| ==> moods[i].date <= moods[j].date
  {
    SortBySorted(UserRows(u, rows), RowTime);
  }

  /** The latest mood row (`lastMoodEntry`, the last of the sorted rows) is
      absent exactly when the user has no row, and otherwise is one of the
      user's rows with none of them later. */
  lemma LastMoodIsLatest(u: string, rows: seq<SheetRow>)
    ensures var last := Last(SortedMoods(u, rows));
      && (last.None? <==> forall i :: 0 <= i < |rows| ==> rows[i].username != u)
      && (last.Some? ==> last.value in rows && last.value.username == u)
      && (last.Some? ==> forall i :: 0 <= i < |rows| && rows[i].username == u ==> rows[i].date <= last.value.date)
  {
    var r := SortedMoods(u, rows);
    FilterSortLast(rows, RowOwner, u, RowTime);
    if r != [] {
      assert RowOwner(r[|r| - 1]) == u;
      forall i | 0 <= i < |rows| && rows[i].username == u
        ensures RowTime(rows[i]) <= RowTime(r[|r| - 1])
      {
        assert RowOwner(rows[i]) == u;
      }
    } else {
      forall i | 0 <= i < |rows|
        ensures rows[i].username != u
      {
        assert RowOwner(rows[i]) != u;
      }
    }
  }

  /** Journals are the user's journals reordered newest first. */
  lemma JournalsNewestFirst(u: string, journals: seq<JournalEntry>)
    ensures var sorted := SortedJournals(u, journals);
      && multiset(sorted) == multiset(UserJournals(u, journals))
      && (forall i, j :: 0 <= i < j < |sorted| ==> sorted[i].date >= sorted[j].date)
  {
    SortBySorted(UserJournals(u, journals), JournalAge);
  }

  /** The latest journal (`lastJournal`, the first of the sorted journals) is
      absent exactly when the user has none, and otherwise is one of the
      user's journals with none of them later. */
  lemma LastJournalIsLatest(u: string, journals: seq<JournalEntry>)
    ensures var latest := First(SortedJournals(u, journals));
      && (latest.None? <==> forall i :: 0 <= i < |journals| ==> journals[i].username != u)
      && (latest.Some? ==> latest.value in journals && latest.value.username == u)
      && (latest.Some? ==> forall i :: 0 <= i < |journals| && journals[i].username == u ==>
            journals[i].date <= latest.value.date)
  {
    var r := SortedJournals(u, journals);
    FilterSortFirst(journals, JournalOwner, u, JournalAge);
    if r != [] {
      assert JournalOwner(r[0]) == u;
      forall i | 0 <= i < |journals| && journals[i].username == u
        ensures JournalAge(r[0]) <= JournalAge(journals[i])
      {
        assert JournalOwner(journals[i]) == u;
      }
    } else {
      forall i | 0 <= i < |journals|
        ensures journals[i].username != u
      {
        assert JournalOwner(journals[i]) != u;
      }
    }
  }

  /** Thought records are the user's records reordered newest first. */
  lemma ThoughtsNewestFirst(u: string, thoughts: seq<ThoughtRecord>)
    ensures var sorted := SortedThoughts(u, thoughts);
      && multiset(sorted) == multiset(UserThoughts(u, thoughts))
      && (forall i, j :: 0 <= i < j < |sorted| ==> sorted[i].date >= sorted[j].date)
  {
    SortBySorted(UserThoughts(u, thoughts), ThoughtAge);
  }

  /** The latest thought record (`lastThought`) is absent exactly when the
      user has none, and otherwise is one of the user's records with none
      of them later. */
  lemma LastThoughtIsLatest(u: string, thoughts: seq<ThoughtRecord>)
    ensures var latest := First(SortedThoughts(u, thoughts));
      && (latest.None? <==> forall i :: 0 <= i < |thoughts| ==> thoughts[i].username != u)
      && (latest.Some? ==> latest.value in thoughts && latest.value.username == u)
      && (latest.Some? ==> forall i :: 0 <= i < |thoughts| && thoughts[i].username == u ==>
            thoughts[i].date <= latest.value.date)
  {
    var r := SortedThoughts(u, thoughts);
    FilterSortFirst(thoughts, ThoughtOwner, u, ThoughtAge);
    if r != [] {
      assert ThoughtOwner(r[0]) == u;
      forall i | 0 <= i < |thoughts| && thoughts[i].username == u
        ensures ThoughtAge(r[0]) <= ThoughtAge(thoughts[i])
      {
        assert ThoughtOwner(thoughts[i]) == u;
      }
    } else {
      forall i | 0 <= i < |thoughts|
        ensures thoughts[i].username != u
      {
        assert ThoughtOwner(thoughts[i]) != u;
      }
    }
  }

  /** "N/A" exactly when the user has no row; otherwise the rounded mean of
      the user's scores, the same in whatever order the rows are summed. */
  lemma AverageScoreSpec(u: string, rows: seq<SheetRow>, journals: seq<JournalEntry>,
                         thoughts: seq<ThoughtRecord>, reordered: seq<SheetRow>)
    requires multiset(reordered) == multiset(UserRows(u, rows))
    ensures var avg := Stats(u, rows, journals, thoughts).avgScore;
      && (avg.None? <==> forall i :: 0 <= i < |rows| ==> rows[i].username != u)
      && (avg.Some? ==> reordered != [] && avg.value == RoundTenth(Mean(Map(reordered, RowScore))))
  {
    FilterEmptyIff(rows, RowOwner, u);
    var userRows := UserRows(u, rows);
    assert |reordered| == |multiset(reordered)| == |userRows|;
    MapPermutation(userRows, reordered, RowScore);
    SumPermutation(Map(userRows, RowScore), Map(reordered, RowScore));
  }

  lemma {:induction false} OccurrencesAppend(a: seq<string>, b: seq<string>, t: string)
    ensures Occurrences(a + b, t) == Occurrences(a, t) + Occurrences(b, t)
    decreases |b|
  {
    if b == [] {
      assert a + b == a;
    } else {
      var n := |b| - 1;
      assert (a + b)[..|a + b| - 1] == a + b[..n];
      OccurrencesAppend(a, b[..n], t);
    }
  }

  /** Each row adds the occurrences in its own split Triggers column. */
  lemma OccurrencesAcrossRows(rows: seq<SheetRow>, r: SheetRow, t: string)
    ensures Occurrences(AllTriggers(rows + [r]), t) ==
      Occurrences(AllTriggers(rows), t) + Occurrences(ReadTriggers(r.triggers), t)
  {
    assert (rows + [r])[..|rows|] == rows;
    OccurrencesAppend(AllTriggers(rows), ReadTriggers(r.triggers), t);
  }

  /** A row with an empty Triggers column contributes nothing. */
  lemma EmptyTriggersContributeNothing(rows: seq<SheetRow>, r: SheetRow)
    requires r.triggers == ""
    ensures AllTriggers(rows + [r]) == AllTriggers(rows)
  {
    assert (rows + [r])[..|rows|] == rows;
  }

  /** The trigger map holds each trigger of the user's rows with its number
      of occurrences, and nothing else. */
  lemma TriggerCountsSpec(rows: seq<SheetRow>)
    ensures var entries := TriggerEntries(rows);
      && Distinct(Map(entries, EntryName))
      && (forall t :: t in Map(entries, EntryName) <==> t in AllTriggers(rows))
      && (forall i :: 0 <= i < |entries| ==> entries[i].count == Occurrences(AllTriggers(rows), entries[i].name))
      && (forall i :: 0 <= i < |entries| ==> entries[i].count >= 1)
  {
    var entries := TriggerEntries(rows);
    assert Map(entries, EntryName) == FirstSeen(AllTriggers(rows));
    forall i | 0 <= i < |entries| ensures entries[i].count >= 1 {
      OccursWhenPresent(AllTriggers(rows), entries[i].name);
    }
  }

  lemma {:induction false} OccursWhenPresent(xs: seq<string>, t: string)
    requires t in xs
    ensures Occurrences(xs, t) >= 1
    decreases |xs|
  {
    var n := |xs| - 1;
    if xs[n] != t {
      assert xs == xs[..n] + [xs[n]];
      OccursWhenPresent(xs[..n], t);
    }
  }

  /** The ranking is a reordering of the entries in descending order of
      count, and the top triggers are the names of its first three, with no
      name twice. */
  lemma TopTriggersOrdered(entries: seq<TriggerCount>)
    requires Distinct(Map(entries, EntryName))
    ensures var top := TopTriggers(entries);
      var ranked := Ranked(entries);
      && |top| <= 3 && |top| == (if |entries| < 3 then |entries| else 3)
      && Distinct(top)
      && multiset(ranked) == multiset(entries)
      && (forall i :: 0 <= i < |top| ==> top[i] == ranked[i].name)
      && (forall i, j :: 0 <= i < j < |ranked| ==> ranked[i].count >= ranked[j].count)
  {
    var ranked := Ranked(entries);
    SortBySorted(entries, ByCountDesc);
    MapPermutation(entries, ranked, EntryName);
    DistinctPermutation(Map(entries, EntryName), Map(ranked, EntryName));
    assert TopTriggers(entries) == Map(ranked, EntryName)[..|TopTriggers(entries)|];
  }

  /** An entry that is not shown has no higher count than the last one shown,
      and is left out only when three are shown. */
  lemma TopTriggersOmitted(entries: seq<TriggerCount>, e: TriggerCount)
    requires e in entries && e.name !in TopTriggers(entries)
    ensures |TopTriggers(entries)| == 3 && e.count <= Ranked(entries)[2].count
  {
    var top := TopTriggers(entries);
    var ranked := Ranked(entries);
    SortBySorted(entries, ByCountDesc);
    assert e in multiset(entries);
    assert e in multiset(ranked);
    var m :| 0 <= m < |ranked| && ranked[m] == e;
    TopIsRankedPrefix(entries);
    assert m >= |top|;
  }

  lemma TopIsRankedPrefix(entries: seq<TriggerCount>)
    ensures forall i :: 0 <= i < |TopTriggers(entries)| ==> TopTriggers(entries)[i] == Ranked(entries)[i].name
  {
  }

  /** Ties keep key order: among entries with equal counts, those shown are
      the first ones in the order the triggers were first seen. */
  lemma TopTriggersTies(entries: seq<TriggerCount>, c: int)
    ensures KeyFilter(Ranked(entries)[..|TopTriggers(entries)|], ByCountDesc, c) <= KeyFilter(entries, ByCountDesc, c)
  {
    KeyFilterPrefix(Ranked(entries), |TopTriggers(entries)|, ByCountDesc, c);
    SortByStable(entries, ByCountDesc, c);
  }

  /** The insertions that rank Sleep 3, Health 1, Work 5, Family 3, from the
      last entry to the first. */
  lemma WorkRanksAboveFamily(work: TriggerCount, family: TriggerCount)
    requires work.count == 5 && family.count == 3
    ensures Insert(work, [family], ByCountDesc) == [work, family]
  {
    InsertFront(work, [family], ByCountDesc);
  }

  lemma HealthRanksLast(health: TriggerCount, work: TriggerCount, family: TriggerCount)
    requires health.count == 1 && work.count == 5 && family.count == 3
    ensures Insert(health, [work, family], ByCountDesc) == [work, family, health]
  {
    var s := [work, family];
    InsertPast(health, s, ByCountDesc);
    assert s[1..] == [family];
    InsertPast(health, [family], ByCountDesc);
    assert [family][1..] == [];
    InsertFront(health, [], ByCountDesc);
    assert [work] + ([family] + [health]) == [work, family, health];
  }

  lemma SleepRanksBeforeFamily(sleep: TriggerCount, health: TriggerCount, work: TriggerCount, family: TriggerCount)
    requires sleep.count == 3 && health.count == 1 && work.count == 5 && family.count == 3
    ensures Insert(sleep, [work, family, health], ByCountDesc) == [work, sleep, family, health]
  {
    var s := [work, family, health];
    InsertPast(sleep, s, ByCountDesc);
    assert s[1..] == [family, health];
    InsertFront(sleep, [family, health], ByCountDesc);
    FlattenPrepends(work, sleep, family, health);
  }

  /** The ranking of Sleep 3, Health 1, Work 5, Family 3: the stable sort puts
      Sleep before Family. */
  lemma ExampleRanking(sleep: TriggerCount, health: TriggerCount, work: TriggerCount, family: TriggerCount)
    requires sleep.count == 3 && health.count == 1 && work.count == 5 && family.count == 3
    ensures Ranked([sleep, health, work, family]) == [work, sleep, family, health]
  {
    var e := [sleep, health, work, family];
    assert e[1..] == [health, work, family];
    assert e[1..][1..] == [work, family];
    assert e[1..][1..][1..] == [family];
    assert [family][1..] == [];
    SortByStep([family], ByCountDesc);
    InsertFront(family, [], ByCountDesc);
    SortByStep([work, family], ByCountDesc);
    WorkRanksAboveFamily(work, family);
    SortByStep([health, work, family], ByCountDesc);
    HealthRanksLast(health, work, family);
    SortByStep(e, ByCountDesc);
    SleepRanksBeforeFamily(sleep, health, work, family);
  }

  /** With at least three entries, the top triggers are the names of the
      first three ranked entries. */
  lemma TopOfRanked(entries: seq<TriggerCount>, ranked: seq<TriggerCount>)
    requires |entries| >= TopTriggerCount && Ranked(entries) == ranked
    ensures TopTriggers(entries) == [ranked[0].name, ranked[1].name, ranked[2].name]
  {
  }

  /** Work 5, Sleep 3, Family 3 and Health 1 give Work, Sleep, Family: Sleep
      was seen before Family. */
  lemma TopTriggersExample()
    ensures TopTriggers([TriggerCount("Sleep", 3), TriggerCount("Health", 1),
                         TriggerCount("Work", 5), TriggerCount("Family", 3)]) == ["Work", "Sleep", "Family"]
  {
    var sleep, health, work, family := TriggerCount("Sleep", 3), TriggerCount("Health", 1),
      TriggerCount("Work", 5), TriggerCount("Family", 3);
    var e := [sleep, health, work, family];
    ExampleRanking(sleep, health, work, family);
    TopOfRanked(e, [work, sleep, family, health]);
  }

  /** Due today exactly when the user has no row; otherwise on the day after
      the latest row (`nextDue`, from `lastMoodEntry`), which is later than
      the day of every row of the user. */
  lemma NextDueSpec(u: string, rows: seq<SheetRow>)
    ensures var last := Last(SortedMoods(u, rows));
      var due := NextDueAfter(last);
      && (due == Today <==> forall i :: 0 <= i < |rows| ==> rows[i].username != u)
      && (due.DueOn? ==> last.Some? && due.day == DayOf(last.value.date) + 1)
      && (due.DueOn? ==> forall i :: 0 <= i < |rows| && rows[i].username == u ==> DayOf(rows[i].date) < due.day)
  {
    LastMoodIsLatest(u, rows);
    var last := Last(SortedMoods(u, rows));
    if last.Some? {
      forall i | 0 <= i < |rows| && rows[i].username == u
        ensures DayOf(rows[i].date) <= DayOf(last.value.date)
      {
        DayOfMonotone(rows[i].date, last.value.date);
      }
    }
  }

  /** Every listed mood log (`allMoods`, the sorted rows mapped through
      `mapToMoodEntry`) has five answers with question ids 1..5, read from
      its row's columns, in the order of the sorted rows. */
  lemma AllMoodsWellFormed(u: string, rows: seq<SheetRow>)
    ensures var sorted := SortedMoods(u, rows);
      var moods := MapRows(sorted);
      && |moods| == |sorted|
      && forall i :: 0 <= i < |moods| ==>
        && WellFormedAnswers(moods[i].answers)
        && moods[i].date == sorted[i].date
        && moods[i].overallScore == sorted[i].overallScore
        && FindAnswer(moods[i].answers, 1) == Some(sorted[i].overallMood)
        && FindAnswer(moods[i].answers, 5) == Some(sorted[i].satisfaction)
  {
    var sorted := SortedMoods(u, rows);
    forall i | 0 <= i < |sorted|
      ensures FindAnswer(MapRows(sorted)[i].answers, 1) == Some(sorted[i].overallMood)
      ensures FindAnswer(MapRows(sorted)[i].answers, 5) == Some(sorted[i].satisfaction)
    {
      assert MapRows(sorted)[i] == RowToEntry(sorted[i]);
    }
  }
}
