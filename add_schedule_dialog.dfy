/** The add-class dialog: eight text fields and an open flag. Submitting checks
    the required fields and normalises the payload; a successful mutation
    closes the dialog and resets every field. */
module AddScheduleDialog {
  import opened Common

  /** What `createSchedule.mutate` receives. `None` in `dayOfWeek` or `year`
      stands for `NaN` from `parseInt`. */
  datatype SchedulePayload = SchedulePayload(
    courseName: string,
    professor: Option<string>,
    classroom: Option<string>,
    dayOfWeek: Option<int>,
    startTime: string,
    endTime: string,
    semester: Option<string>,
    year: Option<int>)

  /** The values of the weekday select, Monday to Friday. */
  const DayChoices: seq<string> := ["1", "2", "3", "4", "5"]

  /** Every weekday choice parses to its weekday number 1..5. */
  lemma DayChoicesParse(i: nat)
    requires i < |DayChoices|
    ensures ParseInt(DayChoices[i]) == Some(i + 1)
  {
    var c := DayChoices[i];
    assert |c| == 1 && IsDigit(c[0]);
    assert c[0..] == c && c[..1] == c && c[..0] == [];
    assert DigitRun(c[1..]) == 0;
  }

  /** `handleSubmit`: no mutation when a required field is empty; otherwise the
      payload with empty optional fields sent as absent and the day and year
      read with `parseInt`. */
  function SubmitPayload(courseName: string, professor: string, classroom: string, dayOfWeek: string,
                         startTime: string, endTime: string, semester: string, year: string): (r: Option<SchedulePayload>)
    ensures r.None? <==> courseName == "" || dayOfWeek == "" || startTime == "" || endTime == ""
    ensures r.Some? ==> r.value.courseName == courseName && r.value.startTime == startTime && r.value.endTime == endTime
    ensures r.Some? ==> r.value.professor == EmptyAsAbsent(professor) && r.value.classroom == EmptyAsAbsent(classroom)
                        && r.value.semester == EmptyAsAbsent(semester)
    ensures r.Some? ==> (r.value.professor.None? <==> professor == "") && (r.value.classroom.None? <==> classroom == "")
                        && (r.value.semester.None? <==> semester == "")
    ensures r.Some? ==> r.value.dayOfWeek == ParseInt(dayOfWeek) && r.value.year == ParseInt(year)
  {
    if courseName == "" || dayOfWeek == "" || startTime == "" || endTime == "" then None
    else Some(SchedulePayload(courseName, EmptyAsAbsent(professor), EmptyAsAbsent(classroom),
                              ParseInt(dayOfWeek), startTime, endTime, EmptyAsAbsent(semester), ParseInt(year)))
  }

  /** The submit button is disabled while the mutation is pending. */
  predicate SubmitEnabled(isPending: bool)
  {
    !isPending
  }

  /** A filled form reset to the current year sends that year as a number and
      every empty optional field as absent. */
  lemma SubmittedYearIsCurrentYear(courseName: string, dayOfWeek: string, startTime: string, endTime: string, currentYear: nat)
    requires courseName != "" && dayOfWeek != "" && startTime != "" && endTime != ""
    ensures var p := SubmitPayload(courseName, "", "", dayOfWeek, startTime, endTime, "", NatToString(currentYear));
            p.Some? && p.value.year == Some(currentYear)
            && p.value.professor.None? && p.value.classroom.None? && p.value.semester.None?
  {
    ParseIntOfNatToString(currentYear);
  }

  class ScheduleDialog {
    var open: bool
    var courseName: string
    var professor: string
    var classroom: string
    var dayOfWeek: string
    var startTime: string
    var endTime: string
    var semester: string
    var year: string

    /** Initial state; `currentYear` is the clock's year as text. */
    constructor (currentYear: string)
      ensures !open && courseName == professor == classroom == dayOfWeek == ""
      ensures startTime == endTime == semester == "" && year == currentYear
    {
      open := false;
      courseName, professor, classroom, dayOfWeek := "", "", "", "";
      startTime, endTime, semester := "", "", "";
      year := currentYear;
    }

    /** The form submit: decides the mutation payload and changes no field. */
    method HandleSubmit() returns (p: Option<SchedulePayload>)
      ensures p == SubmitPayload(courseName, professor, classroom, dayOfWeek, startTime, endTime, semester, year)
      ensures p.Some? ==> p.value.courseName == courseName
    {
      if courseName == "" || dayOfWeek == "" || startTime == "" || endTime == "" {
        return None;
      }
      p := Some(SchedulePayload(courseName, EmptyAsAbsent(professor), EmptyAsAbsent(classroom),
                                ParseInt(dayOfWeek), startTime, endTime, EmptyAsAbsent(semester), ParseInt(year)));
    }

    /** Pressing the submit button: nothing while the mutation is pending (the
        button is disabled); otherwise the form submit. */
    method ClickSubmit(isPending: bool) returns (p: Option<SchedulePayload>)
      ensures p.Some? <==> SubmitEnabled(isPending) && courseName != "" && dayOfWeek != "" && startTime != "" && endTime != ""
      ensures p.Some? ==> p == SubmitPayload(courseName, professor, classroom, dayOfWeek, startTime, endTime, semester, year)
    {
      if !SubmitEnabled(isPending) {
        return None;
      }
      p := HandleSubmit();
    }

    /** The mutation's success callback: closes the dialog and clears every
        field, the year going back to `currentYear`. */
    method OnSuccess(currentYear: string)
      modifies this
      ensures !open && courseName == professor == classroom == dayOfWeek == ""
      ensures startTime == endTime == semester == "" && year == currentYear
    {
      open := false;
      courseName := "";
      professor := "";
      classroom := "";
      dayOfWeek := "";
      startTime := "";
      endTime := "";
      semester := "";
      year := currentYear;
    }
  }
}
