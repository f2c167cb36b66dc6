/** The add-reminder form (src/components/reminders/add-reminder-form.tsx): its validation
    schema, its default values, and the reset after a successful submit.

    A picked due date is modelled as a day number; `None` means no date was picked. */
module ReminderForm {
  import opened Wrappers
  import opened Types

  /** What the form holds; the urgency is the text of the chosen option. */
  datatype Values = Values(machineId: string, taskName: string, dueDate: Option<int>, urgencyLevel: string)

  /** A reminder that passed the schema. */
  datatype Reminder = Reminder(machineId: string, taskName: string, dueDate: int, urgencyLevel: Urgency)

  /** The schema's complaints, in field order. */
  datatype Issue = MachineMissing | TaskNameTooShort | DueDateMissing | UrgencyInvalid

  /** The message shown under the field; the enumeration keeps the schema library's own wording,
      which is not modelled. */
  function IssueMessage(i: Issue): (r: Option<string>)
    ensures r.None? <==> i == UrgencyInvalid
    ensures r.Some? ==> r.value != ""
  {
    match i
    case MachineMissing => Some("Please select a machine.")
    case TaskNameTooShort => Some("Task name must be at least 2 characters.")
    case DueDateMissing => Some("A due date is required.")
    case UrgencyInvalid => None
  }

  const MinTaskName := 2

  /** `formSchema`: every failing field contributes one issue, in the schema's field order. */
  function Issues(v: Values): (r: seq<Issue>)
    ensures MachineMissing in r <==> |v.machineId| < 1
    ensures TaskNameTooShort in r <==> |v.taskName| < MinTaskName
    ensures DueDateMissing in r <==> v.dueDate.None?
    ensures UrgencyInvalid in r <==> ParseUrgency(v.urgencyLevel).None?
    ensures |r| <= 4
  {
    (if |v.machineId| < 1 then [MachineMissing] else [])
    + (if |v.taskName| < MinTaskName then [TaskNameTooShort] else [])
    + (if v.dueDate.None? then [DueDateMissing] else [])
    + (if ParseUrgency(v.urgencyLevel).None? then [UrgencyInvalid] else [])
  }

  /** The schema check: the reminder when there is no issue, the issues otherwise. */
  function Check(v: Values): (r: Result<Reminder, seq<Issue>>)
    ensures r.Success? <==> Issues(v) == []
    ensures r.Failure? ==> r.error == Issues(v)
    ensures r.Success? ==> r.value.machineId == v.machineId && r.value.taskName == v.taskName
                           && Some(r.value.dueDate) == v.dueDate && UrgencyName(r.value.urgencyLevel) == v.urgencyLevel
  {
    if Issues(v) == [] then Success(Reminder(v.machineId, v.taskName, v.dueDate.value, ParseUrgency(v.urgencyLevel).value))
    else Failure(Issues(v))
  }

  /** Each field's message names that field alone: two issues with the same message are the same. */
  lemma IssueMessagesDistinct(i: Issue, j: Issue)
    requires IssueMessage(i).Some?
    ensures IssueMessage(i) == IssueMessage(j) <==> i == j
  {
  }

  /** The default values: no machine, no task name, no date, urgency Medium. */
  function Defaults(): Values
  {
    Values("", "", None, "Medium")
  }

  /** The untouched form fails on the machine, the task name and the date, but not the urgency. */
  lemma DefaultsRejected()
    ensures Issues(Defaults()) == [MachineMissing, TaskNameTooShort, DueDateMissing]
  {
  }

  /** Every reminder the schema accepts reads back from the values it came from. */
  lemma CheckRoundTrip(r: Reminder)
    requires |r.machineId| >= 1 && |r.taskName| >= MinTaskName
    ensures Check(Values(r.machineId, r.taskName, Some(r.dueDate), UrgencyName(r.urgencyLevel))) == Success(r)
  {
    UrgencyRoundTrip(r.urgencyLevel);
  }

  /** The form's state. */
  class Form {
    var values: Values

    constructor()
      ensures values == Defaults()
    {
      values := Defaults();
    }

    /** The user editing the fields. */
    method Fill(v: Values)
      modifies this
      ensures values == v
    {
      values := v;
    }

    /** `handleSubmit(onSubmit)`: valid values are submitted and the form goes back to its
        defaults; otherwise the issues are shown and the values stay as they were. */
    method Submit() returns (r: Result<Reminder, seq<Issue>>)
      modifies this
      ensures r == Check(old(values))
      ensures values == if r.Success? then Defaults() else old(values)
    {
      r := Check(values);
      if r.Success? {
        values := Defaults();
      }
    }
  }
}
