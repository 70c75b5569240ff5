/** The five-step questionnaire: a step index and one answer per question,
    changed by the Next, Previous and slider handlers; the last Next submits
    a log whose score is the mean of the answers to one decimal. */
module MoodQuestionnaire {
  import opened Types
  import opened Numeric

  datatype Question = Question(id: int, text: string)

  const Questions: seq<Question> := [
    Question(1, "How would you rate your overall mood today?"),
    Question(2, "How well did you manage stress today?"),
    Question(3, "How connected did you feel with others today?"),
    Question(4, "How would you rate your energy levels today?"),
    Question(5, "How satisfied are you with your accomplishments today?")
  ]

  /** The answer every question starts with. */
  const InitialAnswer: real := 5.0

  /** The range of the slider that supplies every answer. */
  const SliderMin: real := 0.0
  const SliderMax: real := 10.0

  ghost predicate OnSlider(v: real)
  {
    SliderMin <= v <= SliderMax
  }

  /** The log that `handleSubmit` hands to its caller: the i-th answer goes
      to question `Questions[i].id`, and the score is the rounded mean. */
  function BuildEntry(answers: seq<real>, now: Timestamp): (e: MoodEntry)
    requires |answers| == |Questions|
    ensures WellFormedAnswers(e.answers)
    ensures forall i :: 0 <= i < |answers| ==> e.answers[i].value == answers[i]
    ensures e.date == now && e.triggers == None
    ensures Mean(answers) - 0.05 < e.overallScore <= Mean(answers) + 0.05
    ensures (e.overallScore * 10.0).Floor as real == e.overallScore * 10.0
    ensures (forall i :: 0 <= i < |answers| ==> OnSlider(answers[i])) ==> OnSlider(e.overallScore)
  {
    ScoreOnSlider(answers);
    MoodEntry(
      now,
      seq(|answers|, i requires 0 <= i < |answers| => Answer(Questions[i].id, answers[i])),
      RoundTenth(Mean(answers)),
      None)
  }

  /** Answers taken from the slider give a score on the slider's scale. */
  lemma ScoreOnSlider(answers: seq<real>)
    requires answers != []
    ensures (forall i :: 0 <= i < |answers| ==> OnSlider(answers[i])) ==> OnSlider(RoundTenth(Mean(answers)))
  {
    if forall i :: 0 <= i < |answers| ==> OnSlider(answers[i]) {
      MeanBounds(answers, SliderMin, SliderMax);
      RoundTenthWithin(Mean(answers), 0, 10);
    }
  }

  class Questionnaire {
    var currentStep: int
    var answers: seq<real>

    ghost predicate Valid()
      reads this
    {
      && 0 <= currentStep < |Questions|
      && |answers| == |Questions|
      && forall i :: 0 <= i < |answers| ==> OnSlider(answers[i])
    }

    constructor ()
      ensures Valid()
      ensures currentStep == 0
      ensures answers == [InitialAnswer, InitialAnswer, InitialAnswer, InitialAnswer, InitialAnswer]
    {
      currentStep := 0;
      answers := seq(|Questions|, _ => InitialAnswer);
    }

    function IsLastQuestion(): bool
      reads this
    {
      currentStep == |Questions| - 1
    }

    /** The Previous button is disabled on the first question. */
    function PreviousEnabled(): bool
      reads this
    {
      currentStep != 0
    }

    /** On every question but the last, Next moves one step on; on the last
        it submits, and the step stays where it is. */
    method HandleNext(now: Timestamp) returns (submitted: Option<MoodEntry>)
      requires Valid()
      modifies this
      ensures Valid()
      ensures answers == old(answers)
      ensures old(IsLastQuestion()) ==>
        submitted == Some(BuildEntry(answers, now)) && currentStep == old(currentStep)
      ensures !old(IsLastQuestion()) ==>
        submitted == None && currentStep == old(currentStep) + 1
    {
      if IsLastQuestion() {
        var entry := HandleSubmit(now);
        submitted := Some(entry);
      } else {
        currentStep := currentStep + 1;
        submitted := None;
      }
    }

    method HandlePrevious()
      requires Valid() && PreviousEnabled()
      modifies this
      ensures Valid()
      ensures currentStep == old(currentStep) - 1
      ensures answers == old(answers)
    {
      currentStep := currentStep - 1;
    }

    /** The slider writes the answer of the current question and no other. */
    method HandleAnswerChange(value: real)
      requires Valid() && OnSlider(value)
      modifies this
      ensures Valid()
      ensures currentStep == old(currentStep)
      ensures |answers| == |old(answers)|
      ensures answers[currentStep] == value
      ensures forall i :: 0 <= i < |answers| && i != currentStep ==> answers[i] == old(answers[i])
    {
      var newAnswers := answers;
      newAnswers := newAnswers[currentStep := value];
      answers := newAnswers;
    }

    /** The log built from the current answers; the state is not changed. */
    method HandleSubmit(now: Timestamp) returns (entry: MoodEntry)
      requires Valid()
      ensures entry == BuildEntry(answers, now)
      ensures WellFormedAnswers(entry.answers) && OnSlider(entry.overallScore)
      ensures forall i :: 0 <= i < |answers| ==> entry.answers[i].value == answers[i]
    {
      entry := BuildEntry(answers, now);
    }
  }

  /** A questionnaire answered from the first question to the last, pressing
      Next after each answer: the last press submits the answers given. */
  method AnswerAll(values: seq<real>, now: Timestamp) returns (entry: MoodEntry)
    requires |values| == |Questions|
    requires forall i :: 0 <= i < |values| ==> OnSlider(values[i])
    ensures entry == BuildEntry(values, now)
    ensures WellFormedAnswers(entry.answers) && OnSlider(entry.overallScore)
  {
    var q := new Questionnaire();
    var step := 0;
    var submitted: Option<MoodEntry> := None;
    while step < |Questions|
      invariant 0 <= step <= |Questions|
      invariant q.Valid()
      invariant step < |Questions| ==> q.currentStep == step && submitted == None
      invariant step == |Questions| ==> submitted == Some(BuildEntry(values, now))
      invariant forall i :: 0 <= i < step ==> q.answers[i] == values[i]
      decreases |Questions| - step
    {
      q.HandleAnswerChange(values[step]);
      if step == |Questions| - 1 {
        assert q.answers == values;
      }
      submitted := q.HandleNext(now);
      step := step + 1;
    }
    entry := submitted.value;
  }
}
