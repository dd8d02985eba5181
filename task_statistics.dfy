/**
 * The per-task statistics page: a student's display name, the time format,
 * and which cells of a student's row show a value and which a dash.
 *
 * Times are whole seconds here; the page's fractional seconds are not modelled.
 */
module TaskStatistics {
  import opened Common

  /** One student's line of the task statistics. */
  datatype Stat = Stat(username: string, firstName: string, lastName: string, hasSubmitted: bool, score: real,
                       testCount: int, language: Option<string>, totalTime: nat)

  /** getStudentName: "first last" trimmed, or the username when that is blank. */
  function StudentName(s: Stat): (r: string)
    ensures Trim(s.firstName + " " + s.lastName) != "" ==> r == Trim(s.firstName + " " + s.lastName)
    ensures Trim(s.firstName + " " + s.lastName) == "" ==> r == s.username
  {
    var fullName := Trim(s.firstName + " " + s.lastName);
    if fullName != "" then fullName else s.username
  }

  predicate Blank(t: string) {
    forall i :: 0 <= i < |t| ==> IsSpace(t[i])
  }

  /** "first last" is blank exactly when both parts are. */
  lemma BlankJoin(first: string, last: string)
    ensures Blank(first + " " + last) <==> Blank(first) && Blank(last)
  {
    var joined := first + " " + last;
    if Blank(joined) {
      forall i | 0 <= i < |first|
        ensures IsSpace(first[i])
      {
        assert joined[i] == first[i];
      }
      forall i | 0 <= i < |last|
        ensures IsSpace(last[i])
      {
        assert joined[|first| + 1 + i] == last[i];
      }
    }
  }

  /** The username is shown exactly when both name parts are blank; otherwise the name shown is not blank. */
  lemma NameFallback(s: Stat)
    ensures Blank(s.firstName) && Blank(s.lastName) ==> StudentName(s) == s.username
    ensures !(Blank(s.firstName) && Blank(s.lastName)) ==> !Blank(StudentName(s))
  {
    var joined := s.firstName + " " + s.lastName;
    BlankJoin(s.firstName, s.lastName);
    TrimEmptyIffBlank(joined);
    TrimIdempotent(joined);
    TrimEmptyIffBlank(Trim(joined));
  }

  /** Hours, minutes and seconds of a duration. */
  datatype Clock = Clock(hours: nat, minutes: nat, seconds: nat)

  /** The decomposition formatTime uses. */
  function ClockOf(s: nat): (c: Clock)
    ensures c.minutes < 60 && c.seconds < 60
    ensures c.hours * 3600 + c.minutes * 60 + c.seconds == s
    ensures s < 3600 ==> c.hours == 0
  {
    Clock(s / 3600, (s % 3600) / 60, s % 60)
  }

  /** Any other split into minutes and seconds below 60 that adds up to `s` is that one. */
  lemma ClockUnique(s: nat, c: Clock)
    requires c.minutes < 60 && c.seconds < 60
    requires c.hours * 3600 + c.minutes * 60 + c.seconds == s
    ensures c == ClockOf(s)
  {
    var d := ClockOf(s);
    var rest := c.minutes * 60 + c.seconds;
    assert rest < 3600;
    assert c.hours == s / 3600 && rest == s % 3600;
    assert d.minutes * 60 + d.seconds == rest;
    assert c.minutes == rest / 60;
  }

  /**
   * formatTime for whole seconds: under a minute "s.0秒", under an hour
   * "m分s秒", otherwise "h小时m分s秒".
   */
  function FormatTime(s: nat): (r: string)
    ensures s < 60 ==> r == NatToString(s) + ".0秒"
    ensures 60 <= s < 3600 ==> r == NatToString(ClockOf(s).minutes) + "分" + NatToString(ClockOf(s).seconds) + "秒"
    ensures 3600 <= s ==> r == NatToString(ClockOf(s).hours) + "小时" + NatToString(ClockOf(s).minutes) + "分" +
                                NatToString(ClockOf(s).seconds) + "秒"
  {
    var c := ClockOf(s);
    if s < 60 then NatToString(s) + ".0秒"
    else if s < 3600 then NatToString(c.minutes) + "分" + NatToString(c.seconds) + "秒"
    else NatToString(c.hours) + "小时" + NatToString(c.minutes) + "分" + NatToString(c.seconds) + "秒"
  }

  /** The cells of a row after the name and status; `None` is the dash. */
  datatype Cells = Cells(score: Option<real>, testCount: Option<int>, language: Option<string>, time: Option<string>)

  /** A language cell's label: "Java" for java, "Python" for anything else. */
  function LanguageLabel(language: string): string {
    if language == "java" then "Java" else "Python"
  }

  /** Score and test count need a submission; the language also a non-empty language; the time also a positive time. */
  function RowCells(s: Stat): (c: Cells)
    ensures c.score.Some? <==> s.hasSubmitted
    ensures c.testCount.Some? <==> s.hasSubmitted
    ensures c.language.Some? <==> s.hasSubmitted && s.language.Some? && s.language.value != ""
    ensures c.time.Some? <==> s.hasSubmitted && s.totalTime > 0
    ensures c.score.Some? ==> c.score.value == s.score
    ensures c.testCount.Some? ==> c.testCount.value == s.testCount
    ensures c.language.Some? ==> c.language.value == LanguageLabel(s.language.value)
    ensures c.time.Some? ==> c.time.value == FormatTime(s.totalTime)
  {
    Cells(if s.hasSubmitted then Some(s.score) else None,
          if s.hasSubmitted then Some(s.testCount) else None,
          if s.hasSubmitted && s.language.Some? && s.language.value != "" then Some(LanguageLabel(s.language.value))
          else None,
          if s.hasSubmitted && s.totalTime > 0 then Some(FormatTime(s.totalTime)) else None)
  }
}
