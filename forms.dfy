/**
 * The validation rules of the meeting forms.
 *
 * - JitsiRoomForm.clean_name makes a room name URL-friendly: spaces become
 *   hyphens, then the name is lower-cased (ASCII letters only here);
 * - JitsiRoomForm.duration_hours is optional and, when given, lies in 1..24;
 * - ScheduleMeetingForm.clean checks the recurrence pattern, then combines the
 *   four date and time parts into instants and rejects an end that is not
 *   after the start, then a start in the past, and on success stores the
 *   two instants in the cleaned data.
 *
 * Dates are day numbers, times of day are seconds since midnight, and an
 * instant is the number of seconds since day 0 in one fixed time zone.
 */
module Forms {
  import opened Wrappers

  // ---------------------------------------------------------------------
  // JitsiRoomForm

  predicate IsUpper(c: char) {
    'A' <= c <= 'Z'
  }

  function LowerChar(c: char): char {
    if IsUpper(c) then (c as int - 'A' as int + 'a' as int) as char else c
  }

  /** s.replace(' ', '-'). */
  function ReplaceSpaces(s: string): (r: string)
    ensures |r| == |s|
    ensures forall i :: 0 <= i < |s| ==> r[i] == if s[i] == ' ' then '-' else s[i]
    decreases |s|
  {
    if s == [] then [] else [if s[0] == ' ' then '-' else s[0]] + ReplaceSpaces(s[1..])
  }

  /** s.lower(), for ASCII letters. */
  function Lower(s: string): (r: string)
    ensures |r| == |s|
    ensures forall i :: 0 <= i < |s| ==> r[i] == LowerChar(s[i])
    decreases |s|
  {
    if s == [] then [] else [LowerChar(s[0])] + Lower(s[1..])
  }

  /** clean_name: an absent or empty name is returned as it is; any other
      name has its spaces replaced by hyphens and is then lower-cased. */
  function CleanName(name: Option<string>): Option<string> {
    if name.Some? && name.value != "" then Some(Lower(ReplaceSpaces(name.value))) else name
  }

  /** The cleaned name has the same length, no spaces and no upper-case ASCII
      letters, and agrees with the input character by character. */
  lemma CleanNameShape(name: string)
    requires name != ""
    ensures CleanName(Some(name)).Some?
    ensures var r := CleanName(Some(name)).value;
            && |r| == |name|
            && (forall i :: 0 <= i < |r| ==> r[i] != ' ' && !IsUpper(r[i]))
            && (forall i :: 0 <= i < |r| ==> r[i] == if name[i] == ' ' then '-' else LowerChar(name[i]))
  {
  }

  /** Cleaning a cleaned name changes nothing. */
  lemma CleanNameIdempotent(name: Option<string>)
    ensures CleanName(CleanName(name)) == CleanName(name)
  {
    if name.Some? && name.value != "" {
      var once := CleanName(name).value;
      var twice := Lower(ReplaceSpaces(once));
      assert |twice| == |once|;
      forall i | 0 <= i < |once| ensures twice[i] == once[i] {
        assert once[i] != ' ' && !IsUpper(once[i]);
      }
      assert twice == once;
    }
  }

  /** An absent or empty name is returned unchanged. */
  lemma CleanNameEmpty()
    ensures CleanName(None) == None
    ensures CleanName(Some("")) == Some("")
  {
  }

  const DurationHoursMin: int := 1
  const DurationHoursMax: int := 24

  /** The optional duration_hours field: no value is fine; a value outside
      1..24 is refused with the message of the bound it breaks. */
  function CleanDurationHours(hours: Option<int>): (r: Result<Option<int>>)
    ensures r.Ok? <==> hours.None? || DurationHoursMin <= hours.value <= DurationHoursMax
    ensures r.Ok? ==> r.value == hours
    ensures hours.Some? && hours.value > DurationHoursMax ==>
              r == Err("Ensure this value is less than or equal to 24.")
    ensures hours.Some? && hours.value < DurationHoursMin ==>
              r == Err("Ensure this value is greater than or equal to 1.")
  {
    if hours.None? then Ok(None)
    else if hours.value > DurationHoursMax then Err("Ensure this value is less than or equal to 24.")
    else if hours.value < DurationHoursMin then Err("Ensure this value is greater than or equal to 1.")
    else Ok(hours)
  }

  // ---------------------------------------------------------------------
  // ScheduleMeetingForm

  const SecondsPerDay: int := 86400

  type TimeOfDay = t: int | 0 <= t < 86400

  /** datetime.combine(date, time), as an instant. */
  function Combine(date: int, time: TimeOfDay): int {
    date * SecondsPerDay + time
  }

  /** The fields of the form's cleaned data that clean() reads and writes. */
  datatype ScheduleData = ScheduleData(
    startDate: Option<int>, startTime: Option<TimeOfDay>,
    endDate: Option<int>, endTime: Option<TimeOfDay>,
    recurring: Option<bool>, recurrencePattern: Option<string>,
    startDatetime: Option<int>, endDatetime: Option<int>)
  {
    predicate HasAllParts() {
      startDate.Some? && startTime.Some? && endDate.Some? && endTime.Some?
    }

    function Start(): int requires HasAllParts() {
      Combine(startDate.value, startTime.value)
    }

    function End(): int requires HasAllParts() {
      Combine(endDate.value, endTime.value)
    }
  }

  /** A field error recorded by add_error. */
  datatype FormError = FormError(field: string, message: string)

  /** What clean() does: returns the cleaned data, or raises a validation
      error with a message. */
  datatype CleanResult = Cleaned(data: ScheduleData) | Invalid(message: string)

  /** The effect of clean(): its result, the cleaned data afterwards and the
      field errors it recorded. */
  datatype CleanEffect = CleanEffect(result: CleanResult, data: ScheduleData, errors: seq<FormError>)

  const RecurrenceField: string := "recurrence_pattern"
  const RecurrenceMessage: string := "Please select a recurrence pattern for recurring meetings."
  const OrderMessage: string := "End time must be after start time."
  const PastMessage: string := "Meeting cannot be scheduled in the past."

  predicate NeedsPattern(d: ScheduleData) {
    d.recurring == Some(true) && d.recurrencePattern == Some("none")
  }

  /** The specification of clean(): a recurring meeting with pattern "none"
      gets an error on recurrence_pattern, which also drops that field from
      the cleaned data; then, only when all four date and time parts are
      present, an end not after the start is refused, then a start before
      now, and otherwise the two instants are stored. */
  function CleanSchedule(d: ScheduleData, now: int): (c: CleanEffect)
    ensures c.errors == if NeedsPattern(d) then [FormError(RecurrenceField, RecurrenceMessage)] else []
    ensures c.data.recurrencePattern == if NeedsPattern(d) then None else d.recurrencePattern
    ensures !d.HasAllParts() ==> c.result == Cleaned(c.data)
                                 && c.data == d.(recurrencePattern := c.data.recurrencePattern)
    ensures d.HasAllParts() && d.Start() >= d.End() ==> c.result == Invalid(OrderMessage)
    ensures d.HasAllParts() && d.Start() < d.End() && d.Start() < now ==> c.result == Invalid(PastMessage)
    ensures c.result.Cleaned? <==> !d.HasAllParts() || (d.Start() < d.End() && now <= d.Start())
    ensures c.result.Cleaned? ==> c.result.data == c.data
    ensures c.result.Cleaned? && d.HasAllParts() ==>
              && c.data == d.(recurrencePattern := c.data.recurrencePattern,
                              startDatetime := Some(d.Start()), endDatetime := Some(d.End()))
              && c.data.startDatetime.value < c.data.endDatetime.value
  {
    var errors := if NeedsPattern(d) then [FormError(RecurrenceField, RecurrenceMessage)] else [];
    var d1 := if NeedsPattern(d) then d.(recurrencePattern := None) else d;
    if !d.HasAllParts() then CleanEffect(Cleaned(d1), d1, errors)
    else if d.Start() >= d.End() then CleanEffect(Invalid(OrderMessage), d1, errors)
    else if d.Start() < now then CleanEffect(Invalid(PastMessage), d1, errors)
    else
      var d2 := d1.(startDatetime := Some(d.Start()), endDatetime := Some(d.End()));
      CleanEffect(Cleaned(d2), d2, errors)
  }

  /** The order check runs first: an end not after the start is reported as
      such whatever the current time, even for a start in the past. */
  lemma OrderCheckFirst(d: ScheduleData, now: int, other: int)
    requires d.HasAllParts() && d.Start() >= d.End()
    ensures CleanSchedule(d, now).result == CleanSchedule(d, other).result == Invalid(OrderMessage)
  {
  }

  /** The recurrence error is recorded whatever the dates, even when clean()
      then refuses the dates. */
  lemma RecurrenceCheckIndependent(d: ScheduleData, now: int)
    requires NeedsPattern(d)
    ensures FormError(RecurrenceField, RecurrenceMessage) in CleanSchedule(d, now).errors
  {
  }

  /** A form that clean() accepts yields a meeting whose start is before its
      end and not in the past; so at that moment it is upcoming or active. */
  lemma AcceptedMeetingIsWellOrdered(d: ScheduleData, now: int)
    requires d.HasAllParts()
    requires CleanSchedule(d, now).result.Cleaned?
    ensures var c := CleanSchedule(d, now).data;
            c.startDatetime.Some? && c.endDatetime.Some?
            && now <= c.startDatetime.value < c.endDatetime.value
  {
  }

  /** An instant combines a date and a time of day in order: a later date is
      always later, whatever the times. */
  lemma CombineOrdered(d1: int, t1: TimeOfDay, d2: int, t2: TimeOfDay)
    ensures Combine(d1, t1) < Combine(d2, t2) <==> d1 < d2 || (d1 == d2 && t1 < t2)
  {
    if d1 < d2 {
      assert d1 * SecondsPerDay + SecondsPerDay <= d2 * SecondsPerDay;
    } else if d1 > d2 {
      assert d2 * SecondsPerDay + SecondsPerDay <= d1 * SecondsPerDay;
    }
  }

  /** The form object whose clean() adds errors and rewrites its cleaned
      data in place. */
  class ScheduleMeetingForm {
    var cleanedData: ScheduleData
    var errors: seq<FormError>

    constructor (data: ScheduleData)
      ensures cleanedData == data && errors == []
    {
      cleanedData := data;
      errors := [];
    }

    /** add_error(field, message): records the error and drops the field
        from the cleaned data (only recurrence_pattern is used here). */
    method AddRecurrenceError()
      modifies this
      ensures errors == old(errors) + [FormError(RecurrenceField, RecurrenceMessage)]
      ensures cleanedData == old(cleanedData).(recurrencePattern := None)
    {
      errors := errors + [FormError(RecurrenceField, RecurrenceMessage)];
      cleanedData := cleanedData.(recurrencePattern := None);
    }

    method Clean(now: int) returns (r: CleanResult)
      modifies this
      ensures var c := CleanSchedule(old(cleanedData), now);
              r == c.result && cleanedData == c.data && errors == old(errors) + c.errors
    {
      var d := cleanedData;
      if d.recurring == Some(true) && d.recurrencePattern == Some("none") {
        AddRecurrenceError();
      }
      if d.startDate.Some? && d.startTime.Some? && d.endDate.Some? && d.endTime.Some? {
        var startDatetime := Combine(d.startDate.value, d.startTime.value);
        var endDatetime := Combine(d.endDate.value, d.endTime.value);
        if startDatetime >= endDatetime {
          return Invalid(OrderMessage);
        }
        if startDatetime < now {
          return Invalid(PastMessage);
        }
        cleanedData := cleanedData.(startDatetime := Some(startDatetime), endDatetime := Some(endDatetime));
      }
      r := Cleaned(cleanedData);
    }
  }
}
