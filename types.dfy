/** The records the components exchange. The repository's own type
    declarations (src/types) are not part of this model; the fields below are
    the ones the core reads and writes. */
module Types {

  datatype Option<T> = None | Some(value: T)

  /** A point in time, in milliseconds since the epoch (`Date.getTime()`). */
  type Timestamp = int

  const MsPerDay: int := 86_400_000

  /** The calendar day a timestamp falls on, counted in days since the epoch. */
  function DayOf(t: Timestamp): int
  {
    t / MsPerDay
  }

  /** A later time is never on an earlier day, and a whole day later is on the next day. */
  lemma DayOfMonotone(a: Timestamp, b: Timestamp)
    requires a <= b
    ensures DayOf(a) <= DayOf(b)
    ensures DayOf(a + MsPerDay) == DayOf(a) + 1
  {
    assert (a + MsPerDay) / MsPerDay == a / MsPerDay + 1;
  }

  /** One answer of the questionnaire: question 1..5 and its value. */
  datatype Answer = Answer(questionId: int, value: real)

  /** A mood log. `triggers` is optional in the application: entries made by
      the questionnaire have none, entries read back from the sheet have a list. */
  datatype MoodEntry = MoodEntry(
    date: Timestamp,
    answers: seq<Answer>,
    overallScore: real,
    triggers: Option<seq<string>>)

  datatype JournalEntry = JournalEntry(
    username: string,
    date: Timestamp,
    content: string,
    dayNumber: Option<int>)

  /** A cognitive-behavioural-therapy thought record. */
  datatype ThoughtRecord = ThoughtRecord(
    username: string,
    date: Timestamp,
    emotion: string,
    situation: string,
    intensityScore: int,
    emotionAfterIntensity: int,
    alternativeThought: string)

  /** The number of questions of the questionnaire. */
  const QuestionCount: nat := 5

  /** The answers of a complete log: one per question, the i-th for question i + 1. */
  ghost predicate WellFormedAnswers(answers: seq<Answer>)
  {
    |answers| == QuestionCount &&
    forall i :: 0 <= i < |answers| ==> answers[i].questionId == i + 1
  }
}
