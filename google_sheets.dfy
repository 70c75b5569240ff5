/** The spreadsheet sync client: the codec between mood logs and flat sheet
    rows, and the per-user local cache used when the endpoint fails. The
    endpoint is an outside party; its answer to each request is an input. */
module GoogleSheets {
  import opened Types
  import opened Seqs

  /** The separator of the Triggers column. */
  const Separator: string := ", "

  /** A row of the sheet as the endpoint returns it, one field per column:
      Username, Date, Overall Score, Q1: Overall Mood, Q2: Stress, Q3: Social,
      Q4: Energy, Q5: Satisfaction, Triggers. A missing Triggers column reads
      the same as an empty one. */
  datatype SheetRow = SheetRow(
    username: string,
    date: Timestamp,
    overallScore: real,
    overallMood: real,
    stress: real,
    social: real,
    energy: real,
    satisfaction: real,
    triggers: string)

  /** The row `saveEntry` posts: a question column is absent when the log has
      no answer to that question. */
  datatype Payload = Payload(
    username: string,
    date: Timestamp,
    overallScore: real,
    overallMood: Option<real>,
    stress: Option<real>,
    social: Option<real>,
    energy: Option<real>,
    satisfaction: Option<real>,
    triggers: string)

  /** No ", " occurs in `s`. */
  ghost predicate NoSeparator(s: string)
  {
    forall i :: 0 <= i < |s| - 1 ==> !(s[i] == ',' && s[i + 1] == ' ')
  }

  /** `s.split(', ')`: scanning from the left, every ", " ends a piece. */
  function Split(s: string): (pieces: seq<string>)
    ensures |pieces| >= 1
    decreases |s|
  {
    if s == "" then [""]
    else if |s| >= 2 && s[0] == ',' && s[1] == ' ' then [""] + Split(s[2..])
    else
      var rest := Split(s[1..]);
      [[s[0]] + rest[0]] + rest[1..]
  }

  /** `xs.join(', ')`. */
  function Join(xs: seq<string>): string
  {
    JoinWith(xs, Separator)
  }

  /** `item.Triggers ? item.Triggers.split(', ') : []`: no triggers exactly
      for an empty column, and otherwise pieces that join back to the column. */
  function ReadTriggers(column: string): (triggers: seq<string>)
    ensures triggers == [] <==> column == ""
    ensures column != "" ==> Join(triggers) == column
  {
    if column == "" then []
    else
      JoinSplit(column);
      Split(column)
  }

  /** `entry.triggers?.join(', ') || ''`: an absent list is written like an
      empty one, and the column is empty exactly for the lists [] and [""]. */
  function WriteTriggers(triggers: Option<seq<string>>): (column: string)
    ensures column == Join(TriggerList(triggers))
    ensures column == "" <==> TriggerList(triggers) == [] || TriggerList(triggers) == [""]
  {
    match triggers
    case None => ""
    case Some(xs) =>
      assert |xs| >= 2 ==> |Join(xs)| >= |Separator|;
      Join(xs)
  }

  /** `answers.find(a => a.questionId === id)?.value` */
  function FindAnswer(answers: seq<Answer>, id: int): (r: Option<real>)
    ensures r.None? <==> forall i :: 0 <= i < |answers| ==> answers[i].questionId != id
    ensures r.Some? ==> (exists i :: 0 <= i < |answers| && answers[i].questionId == id &&
                                     r.value == answers[i].value &&
                                     forall j :: 0 <= j < i ==> answers[j].questionId != id)
  {
    if answers == [] then None
    else if answers[0].questionId == id then Some(answers[0].value)
    else
      var r := FindAnswer(answers[1..], id);
      assert r.Some? ==> (exists i :: 1 <= i < |answers| && answers[i].questionId == id &&
                                      r.value == answers[i].value &&
                                      forall j :: 0 <= j < i ==> answers[j].questionId != id) by {
        if r.Some? {
          var k :| 0 <= k < |answers[1..]| && answers[1..][k].questionId == id &&
            r.value == answers[1..][k].value &&
            forall j :: 0 <= j < k ==> answers[1..][j].questionId != id;
          assert answers[k + 1] == answers[1..][k];
          assert forall j :: 1 <= j < k + 1 ==> answers[j] == answers[1..][j - 1];
        }
      }
      r
  }

  /** In a well-formed answer list, question `id` is answered at index `id - 1`. */
  lemma FindInWellFormed(answers: seq<Answer>, id: int)
    requires WellFormedAnswers(answers)
    requires 1 <= id <= QuestionCount
    ensures FindAnswer(answers, id) == Some(answers[id - 1].value)
  {
  }

  /** The log a fetched row stands for: five answers with question ids 1..5,
      each taken from its own column. */
  function RowToEntry(row: SheetRow): (e: MoodEntry)
    ensures WellFormedAnswers(e.answers)
    ensures e.date == row.date && e.overallScore == row.overallScore
    ensures FindAnswer(e.answers, 1) == Some(row.overallMood)
    ensures FindAnswer(e.answers, 2) == Some(row.stress)
    ensures FindAnswer(e.answers, 3) == Some(row.social)
    ensures FindAnswer(e.answers, 4) == Some(row.energy)
    ensures FindAnswer(e.answers, 5) == Some(row.satisfaction)
    ensures e.triggers == Some(ReadTriggers(row.triggers))
  {
    var answers := [
      Answer(1, row.overallMood),
      Answer(2, row.stress),
      Answer(3, row.social),
      Answer(4, row.energy),
      Answer(5, row.satisfaction)];
    assert WellFormedAnswers(answers);
    FindInWellFormed(answers, 1);
    FindInWellFormed(answers, 2);
    FindInWellFormed(answers, 3);
    FindInWellFormed(answers, 4);
    FindInWellFormed(answers, 5);
    MoodEntry(row.date, answers, row.overallScore, Some(ReadTriggers(row.triggers)))
  }

  /** `data.map(...)`: every fetched row, in order. */
  function MapRows(rows: seq<SheetRow>): (entries: seq<MoodEntry>)
    ensures |entries| == |rows|
    ensures forall i :: 0 <= i < |rows| ==> entries[i] == RowToEntry(rows[i])
  {
    seq(|rows|, i requires 0 <= i < |rows| => RowToEntry(rows[i]))
  }

  /** The question column `id` (1..5) of a posted row. */
  function Column(p: Payload, id: int): Option<real>
    requires 1 <= id <= QuestionCount
  {
    if id == 1 then p.overallMood
    else if id == 2 then p.stress
    else if id == 3 then p.social
    else if id == 4 then p.energy
    else p.satisfaction
  }

  /** The posted row: the user, date and score of the log; each question
      column absent exactly when no answer has that question's id, and
      otherwise the value of the first answer that has it; the joined
      triggers. */
  function BuildPayload(entry: MoodEntry, username: string): (p: Payload)
    ensures p.username == username && p.date == entry.date && p.overallScore == entry.overallScore
    ensures forall id :: 1 <= id <= QuestionCount ==>
      (Column(p, id).None? <==> forall i :: 0 <= i < |entry.answers| ==> entry.answers[i].questionId != id)
    ensures forall id :: 1 <= id <= QuestionCount && Column(p, id).Some? ==>
      exists i :: 0 <= i < |entry.answers| && entry.answers[i].questionId == id &&
        entry.answers[i].value == Column(p, id).value &&
        forall j :: 0 <= j < i ==> entry.answers[j].questionId != id
    ensures p.triggers == Join(TriggerList(entry.triggers))
  {
    Payload(
      username,
      entry.date,
      entry.overallScore,
      FindAnswer(entry.answers, 1),
      FindAnswer(entry.answers, 2),
      FindAnswer(entry.answers, 3),
      FindAnswer(entry.answers, 4),
      FindAnswer(entry.answers, 5),
      WriteTriggers(entry.triggers))
  }

  /** What the endpoint gives back for a posted row: the same columns, when
      every question column was sent. */
  function StoredRow(p: Payload): Option<SheetRow>
  {
    if p.overallMood.Some? && p.stress.Some? && p.social.Some? && p.energy.Some? && p.satisfaction.Some? then
      Some(SheetRow(p.username, p.date, p.overallScore, p.overallMood.value, p.stress.value,
        p.social.value, p.energy.value, p.satisfaction.value, p.triggers))
    else None
  }

  /** The local-storage key of a user's cached logs. */
  function CacheKey(username: string): string
  {
    "moodEntries_" + username
  }

  /** The trigger list of a log, absent read as empty. */
  function TriggerList(triggers: Option<seq<string>>): seq<string>
  {
    match triggers
    case None => []
    case Some(xs) => xs
  }

  // ---------------------------------------------------------------------
  // The Triggers column codec

  lemma {:induction false} SplitWithoutSeparator(a: string)
    requires NoSeparator(a)
    ensures Split(a) == [a]
    decreases |a|
  {
    if a != "" {
      assert !(|a| >= 2 && a[0] == ',' && a[1] == ' ');
      SplitWithoutSeparator(a[1..]);
      assert [a[0]] + a[1..] == a;
    }
  }

  lemma {:induction false} SplitAtSeparator(a: string, rest: string)
    requires NoSeparator(a)
    ensures Split(a + Separator + rest) == [a] + Split(rest)
    decreases |a|
  {
    var s := a + Separator + rest;
    if a == "" {
      assert s == ", " + rest;
      assert s[2..] == rest;
    } else {
      assert s[0] == a[0];
      assert s[1] == if |a| >= 2 then a[1] else ',';
      assert s[1..] == a[1..] + Separator + rest;
      SplitAtSeparator(a[1..], rest);
      assert [a[0]] + a[1..] == a;
    }
  }

  /** Splitting a joined list gives the list back when no item contains the
      separator, except for the one list [""] whose join is empty. */
  lemma {:induction false} SplitJoin(xs: seq<string>)
    requires xs != []
    requires forall i :: 0 <= i < |xs| ==> NoSeparator(xs[i])
    ensures Split(Join(xs)) == xs
  {
    if |xs| == 1 {
      SplitWithoutSeparator(xs[0]);
    } else {
      SplitJoin(xs[1..]);
      SplitAtSeparator(xs[0], Join(xs[1..]));
      assert xs == [xs[0]] + xs[1..];
    }
  }

  /** Joining the pieces of a split gives the string back, for every string. */
  lemma {:induction false} JoinSplit(s: string)
    ensures Join(Split(s)) == s
    decreases |s|
  {
    if s == "" {
    } else if |s| >= 2 && s[0] == ',' && s[1] == ' ' {
      JoinSplit(s[2..]);
      var pieces := Split(s);
      assert pieces[1..] == Split(s[2..]);
      assert Join(pieces) == "" + Separator + Join(Split(s[2..]));
      assert s == ", " + s[2..];
    } else {
      var rest := Split(s[1..]);
      JoinSplit(s[1..]);
      assert Split(s) == [[s[0]] + rest[0]] + rest[1..];
      JoinPrefixFirst(s[0], rest, Separator);
      assert s == [s[0]] + s[1..];
    }
  }

  /** Writing a trigger list and reading it back gives the list, when no item
      contains ", " and the list is not [""]. */
  lemma TriggersRoundTrip(xs: seq<string>)
    requires forall i :: 0 <= i < |xs| ==> NoSeparator(xs[i])
    requires xs != [""]
    ensures ReadTriggers(WriteTriggers(Some(xs))) == xs
  {
    if xs != [] {
      SplitJoin(xs);
      if |xs| >= 2 {
        assert |Join(xs)| >= |Separator|;
      }
    }
  }

  /** The one list that does not survive: [""] is written as an empty column,
      which reads back as no triggers. Items that contain ", " are split apart. */
  lemma TriggersThatDoNotRoundTrip()
    ensures ReadTriggers(WriteTriggers(Some([""]))) == []
    ensures ReadTriggers(WriteTriggers(Some(["a, b"]))) == ["a", "b"]
  {
    var b := Split("b");
    var empty := Split("");
    assert empty == [""];
    assert "b"[1..] == "";
    assert b == [['b'] + empty[0]] + empty[1..];
    assert ['b'] + empty[0] == "b";
    assert b == ["b"];
    assert ", b"[2..] == "b";
    assert Split(", b") == [""] + b;
    assert "a, b"[1..] == ", b";
    var ab := Split(", b");
    assert ab[0] == "" && ab[1..] == ["b"];
    assert Split("a, b") == [['a'] + ab[0]] + ab[1..];
    assert ['a'] + ab[0] == "a";
    assert Split("a, b") == ["a", "b"];
    assert WriteTriggers(Some(["a, b"])) == "a, b";
  }

  /** Reading a column and writing it back gives the column back. */
  lemma ColumnRoundTrip(column: string)
    ensures WriteTriggers(Some(ReadTriggers(column))) == column
  {
    if column != "" {
      JoinSplit(column);
    }
  }

  // ---------------------------------------------------------------------
  // The row codec

  /** The question columns of a posted log with one answer per question. */
  lemma PayloadOfWellFormedEntry(e: MoodEntry, username: string)
    requires WellFormedAnswers(e.answers)
    ensures var p := BuildPayload(e, username);
      && p.username == username && p.date == e.date && p.overallScore == e.overallScore
      && p.overallMood == Some(e.answers[0].value)
      && p.stress == Some(e.answers[1].value)
      && p.social == Some(e.answers[2].value)
      && p.energy == Some(e.answers[3].value)
      && p.satisfaction == Some(e.answers[4].value)
      && p.triggers == WriteTriggers(e.triggers)
  {
    assert e.answers[0].questionId == 1;
    assert e.answers[1].questionId == 2;
    assert e.answers[2].questionId == 3;
    assert e.answers[3].questionId == 4;
    assert e.answers[4].questionId == 5;
  }

  /** A posted log without an answer to question `id` leaves that column
      out, and the endpoint then has no complete row to store. */
  lemma PayloadColumnAbsent(e: MoodEntry, username: string, id: int)
    requires 1 <= id <= QuestionCount
    requires forall i :: 0 <= i < |e.answers| ==> e.answers[i].questionId != id
    ensures Column(BuildPayload(e, username), id).None?
    ensures StoredRow(BuildPayload(e, username)).None?
  {
  }

  /** Saving a well-formed log and fetching it back gives the same log, with
      an absent trigger list read back as an empty one. */
  lemma SaveFetchRoundTrip(e: MoodEntry, username: string)
    requires WellFormedAnswers(e.answers)
    requires forall i :: 0 <= i < |TriggerList(e.triggers)| ==> NoSeparator(TriggerList(e.triggers)[i])
    requires TriggerList(e.triggers) != [""]
    ensures StoredRow(BuildPayload(e, username)).Some?
    ensures RowToEntry(StoredRow(BuildPayload(e, username)).value) == e.(triggers := Some(TriggerList(e.triggers)))
  {
    PayloadOfWellFormedEntry(e, username);
    var row := StoredRow(BuildPayload(e, username)).value;
    TriggersRoundTrip(TriggerList(e.triggers));
    AnswersFromColumns(e.answers, row);
  }

  /** A well-formed answer list is the one rebuilt from a row carrying its values. */
  lemma AnswersFromColumns(answers: seq<Answer>, row: SheetRow)
    requires WellFormedAnswers(answers)
    requires row.overallMood == answers[0].value && row.stress == answers[1].value
    requires row.social == answers[2].value && row.energy == answers[3].value
    requires row.satisfaction == answers[4].value
    ensures RowToEntry(row).answers == answers
  {
    assert answers[0].questionId == 1 && answers[1].questionId == 2 && answers[2].questionId == 3;
    assert answers[3].questionId == 4 && answers[4].questionId == 5;
    assert answers == [answers[0], answers[1], answers[2], answers[3], answers[4]];
  }

  /** Fetching a row and posting the log it gives back produces the same row. */
  lemma FetchSaveRoundTrip(row: SheetRow)
    ensures StoredRow(BuildPayload(RowToEntry(row), row.username)) == Some(row)
  {
    ColumnRoundTrip(row.triggers);
  }

  /** Different users have different cache keys. */
  lemma CacheKeyInjective(u: string, v: string)
    requires CacheKey(u) == CacheKey(v)
    ensures u == v
  {
    var n := |"moodEntries_"|;
    assert u == CacheKey(u)[n..];
    assert v == CacheKey(v)[n..];
  }

  // ---------------------------------------------------------------------
  // Requests, with local storage as the fallback

  /** How the GET request ended: a successful response whose body is the
      list of rows, a non-ok status, or a failure (network, body parsing). */
  datatype FetchResponse = Rows(rows: seq<SheetRow>) | NotOk | FetchFailed

  /** How the POST request ended: a response with its `ok` flag, or a failure. */
  datatype PostResponse = Responded(ok: bool) | PostFailed

  /** The sync client; `storage` is the browser's local storage, holding one
      list of logs per key. */
  class SheetsClient {
    var storage: map<string, seq<MoodEntry>>

    constructor (storage: map<string, seq<MoodEntry>>)
      ensures this.storage == storage
    {
      this.storage := storage;
    }

    /** `localStorage.getItem('moodEntries_' + username)`, parsed: the logs
        stored under the user's key, or none when nothing is stored there. */
    function Cached(username: string): (logs: seq<MoodEntry>)
      reads this
      ensures CacheKey(username) in storage ==> logs == storage[CacheKey(username)]
      ensures CacheKey(username) !in storage ==> logs == []
    {
      var key := CacheKey(username);
      if key in storage then storage[key] else []
    }

    /** The logs on the sheet when the request succeeds, otherwise the
        user's cached logs (empty when there are none). It never fails. */
    function FetchEntries(username: string, response: FetchResponse): (r: seq<MoodEntry>)
      reads this
      ensures response.Rows? ==> |r| == |response.rows|
      ensures response.Rows? ==> forall i :: 0 <= i < |r| ==> r[i] == RowToEntry(response.rows[i])
      ensures !response.Rows? ==> (CacheKey(username) in storage ==> r == storage[CacheKey(username)])
      ensures !response.Rows? ==> (CacheKey(username) !in storage ==> r == [])
    {
      match response
      case Rows(rows) => MapRows(rows)
      case _ => Cached(username)
    }

    /** Posts the log. When the request completes, whatever its status, the
        log is appended to the user's cache and the status is returned; when
        it fails, nothing is cached and the result is false. */
    method SaveEntry(entry: MoodEntry, username: string, response: PostResponse)
      returns (ok: bool, sent: Payload)
      modifies this
      ensures sent == BuildPayload(entry, username)
      ensures response.PostFailed? ==> !ok && storage == old(storage)
      ensures response.Responded? ==> ok == response.ok
      ensures response.Responded? ==>
        storage == old(storage)[CacheKey(username) := old(Cached(username)) + [entry]]
      ensures response.Responded? ==> Cached(username) == old(Cached(username)) + [entry]
      ensures forall other :: other != username ==> Cached(other) == old(Cached(other))
      ensures forall k :: k != CacheKey(username) ==>
        (k in storage <==> k in old(storage)) && (k in storage ==> storage[k] == old(storage)[k])
    {
      sent := BuildPayload(entry, username);
      match response {
        case PostFailed =>
          ok := false;
        case Responded(status) =>
          var saved := Cached(username);
          storage := storage[CacheKey(username) := saved + [entry]];
          ok := status;
      }
      forall other | other != username ensures Cached(other) == old(Cached(other)) {
        if CacheKey(other) == CacheKey(username) {
          CacheKeyInjective(other, username);
        }
      }
    }
  }
}
