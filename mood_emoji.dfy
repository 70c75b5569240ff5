/** The emoji shown for a score: five bands, each closed below and open above. */
module MoodEmoji {

  datatype Icon = Smile | Meh | Frown

  /** What `getMoodInfo` returns: the icon, its colour class and the label. */
  datatype MoodInfo = MoodInfo(icon: Icon, colorClass: string, labelText: string)

  function GetMoodInfo(score: real): (info: MoodInfo)
    ensures info.labelText == "Great" <==> 8.0 <= score
    ensures info.labelText == "Good" <==> 6.0 <= score < 8.0
    ensures info.labelText == "Okay" <==> 4.0 <= score < 6.0
    ensures info.labelText == "Bad" <==> 2.0 <= score < 4.0
    ensures info.labelText == "Terrible" <==> score < 2.0
    ensures info.icon == Smile <==> 6.0 <= score
    ensures info.icon == Meh <==> 4.0 <= score < 6.0
    ensures info.icon == Frown <==> score < 4.0
  {
    if score >= 8.0 then MoodInfo(Smile, "text-mood-great", "Great")
    else if score >= 6.0 then MoodInfo(Smile, "text-mood-good", "Good")
    else if score >= 4.0 then MoodInfo(Meh, "text-mood-okay", "Okay")
    else if score >= 2.0 then MoodInfo(Frown, "text-mood-bad", "Bad")
    else MoodInfo(Frown, "text-mood-terrible", "Terrible")
  }

  /** The labels, from the lowest band to the highest. */
  const Labels: seq<string> := ["Terrible", "Bad", "Okay", "Good", "Great"]

  /** Every score gets exactly one of the five labels. */
  lemma ExactlyOneLabel(score: real)
    ensures exists i :: 0 <= i < |Labels| && GetMoodInfo(score).labelText == Labels[i]
    ensures forall i, j :: 0 <= i < j < |Labels| ==> Labels[i] != Labels[j]
  {
    var l := GetMoodInfo(score).labelText;
    if score >= 8.0 { assert l == Labels[4]; }
    else if score >= 6.0 { assert l == Labels[3]; }
    else if score >= 4.0 { assert l == Labels[2]; }
    else if score >= 2.0 { assert l == Labels[1]; }
    else { assert l == Labels[0]; }
  }
}
