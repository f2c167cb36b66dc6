/** The home page (src/app/page.tsx): a landing view when no machine is registered, otherwise the
    overview built from the dashboard selections. */
module HomePage {
  import opened Wrappers
  import opened Types
  import opened Lists
  import opened Dashboard

  /** One row of the upcoming-maintenance table. */
  datatype TaskRow = TaskRow(machineName: string, task: MaintenanceTask, badge: Variant)

  datatype View =
    | Landing
    | Overview(rows: seq<TaskRow>, attention: seq<Machine>, attentionNote: Option<string>)

  function Rows(machines: seq<Machine>, upcoming: seq<MaintenanceTask>): (r: seq<TaskRow>)
    ensures |r| == |upcoming|
  {
    seq(|upcoming|, i requires 0 <= i < |upcoming| =>
      TaskRow(MachineName(machines, upcoming[i].machineId), upcoming[i], UrgencyVariant(upcoming[i].urgencyLevel)))
  }

  /** The page: the landing view exactly when there are no machines. */
  function Home(machines: seq<Machine>, tasks: seq<MaintenanceTask>): (r: View)
    ensures r.Landing? <==> machines == []
  {
    if machines == [] then Landing
    else
      var attention := MachinesNeedingAttention(machines, tasks);
      Overview(Rows(machines, UpcomingTasks(tasks)), attention, AttentionNote(attention))
  }

  /** With no machines the tasks make no difference. */
  lemma LandingIgnoresTasks(tasks: seq<MaintenanceTask>, others: seq<MaintenanceTask>)
    ensures Home([], tasks) == Home([], others) == Landing
  {
  }

  /** The overview's table lists the upcoming tasks in order, each beside its own machine's name
      (never empty) and its urgency's badge; at most five rows. */
  lemma RowsShowUpcoming(machines: seq<Machine>, tasks: seq<MaintenanceTask>)
    requires machines != []
    ensures var rows := Home(machines, tasks).rows;
            && |rows| <= UpcomingLimit
            && (forall i :: 0 <= i < |rows| ==> rows[i].task == UpcomingTasks(tasks)[i] && rows[i].task.status == Pending)
            && (forall i :: 0 <= i < |rows| ==> rows[i].machineName == MachineName(machines, rows[i].task.machineId))
            && (forall i :: 0 <= i < |rows| ==> rows[i].machineName != "")
            && (forall i :: 0 <= i < |rows| ==> (rows[i].badge == Destructive <==> rows[i].task.urgencyLevel == High))
  {
    var rows := Home(machines, tasks).rows;
    forall i | 0 <= i < |rows|
      ensures rows[i].badge == Destructive <==> rows[i].task.urgencyLevel == High
    {
      UrgencyVariantDistinct(rows[i].task.urgencyLevel, High);
    }
  }

  /** "All machines are looking good!" is shown exactly when no machine has a High task. */
  lemma AllGoodIffNoHighTask(machines: seq<Machine>, tasks: seq<MaintenanceTask>)
    requires machines != []
    ensures Home(machines, tasks).attentionNote == Some(AllGood)
            <==> forall k :: 0 <= k < |machines| ==> !HasHighTask(machines[k], tasks)
    ensures Home(machines, tasks).attentionNote.None? ==> Home(machines, tasks).attention != []
  {
    var p := m => HasHighTask(m, tasks);
    var kept := Filter(machines, p);
    FilterMembers(machines, p);
    if kept != [] {
      assert kept[0] in kept;
      var k :| 0 <= k < |machines| && machines[k] == kept[0];
      assert HasHighTask(machines[k], tasks);
    }
  }
}
