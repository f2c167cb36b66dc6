/** The upcoming-reminder lists of the reminders page (src/app/reminders/page.tsx) and the
    notifications page (src/app/notifications/page.tsx), which select and badge tasks the same way.

    The clock and date parsing are outside the model: `now` is the current time and `dueTime`
    the time a due-date text denotes, `None` when it is not a date (an invalid date is never later
    than now). */
module Reminders {
  import opened Wrappers
  import opened Types
  import opened Lists
  import Dashboard

  const NoReminders := "No upcoming reminders."

  /** The filter's test: pending, and due strictly after now. */
  predicate IsUpcoming(t: MaintenanceTask, now: int, dueTime: string -> Option<int>)
  {
    t.status == Pending && dueTime(t.dueDate).Some? && dueTime(t.dueDate).value > now
  }

  /** `upcomingReminders`. */
  function UpcomingReminders(tasks: seq<MaintenanceTask>, now: int, dueTime: string -> Option<int>)
    : (r: seq<MaintenanceTask>)
    ensures forall i :: 0 <= i < |r| ==> r[i].status == Pending
    ensures forall i :: 0 <= i < |r| ==> dueTime(r[i].dueDate).Some? && dueTime(r[i].dueDate).value > now
    ensures forall i :: 0 <= i < |tasks| && IsUpcoming(tasks[i], now, dueTime) ==> tasks[i] in r
  {
    Filter(tasks, t => IsUpcoming(t, now, dueTime))
  }

  /** The badge: destructive for High, secondary for Medium and Low alike. */
  function ReminderBadge(u: Urgency): (r: Dashboard.Variant)
    ensures r == Dashboard.Destructive <==> u == High
    ensures r != Dashboard.Default
  {
    if u == High then Dashboard.Destructive else Dashboard.Secondary
  }

  /** The note shown instead of an empty list. */
  function EmptyNote(upcoming: seq<MaintenanceTask>): (r: Option<string>)
    ensures r.Some? <==> upcoming == []
    ensures r.Some? ==> r.value == NoReminders
  {
    if upcoming == [] then Some(NoReminders) else None
  }

  /** The list keeps the task list's order. */
  lemma RemindersInOrder(tasks: seq<MaintenanceTask>, now: int, dueTime: string -> Option<int>)
    ensures IsSubsequence(UpcomingReminders(tasks, now, dueTime), tasks)
  {
    FilterIsSubsequence(tasks, t => IsUpcoming(t, now, dueTime));
  }

  /** A completed or overdue task is never listed, however far in the future it is due. */
  lemma ClosedTasksExcluded(tasks: seq<MaintenanceTask>, now: int, dueTime: string -> Option<int>, t: MaintenanceTask)
    requires t.status != Pending
    ensures t !in UpcomingReminders(tasks, now, dueTime)
  {
  }

  /** Only the badge differs from the dashboard's map, and only for Medium. */
  lemma BadgeAgreesWithDashboardExceptMedium(u: Urgency)
    ensures ReminderBadge(u) == Dashboard.UrgencyVariant(u) <==> u != Medium
  {
  }
}
