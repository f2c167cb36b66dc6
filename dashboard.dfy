/** The selections the dashboard shows (src/components/dashboard/dashboard-page.tsx, repeated
    verbatim in src/app/page.tsx): the next pending tasks, the machines with a high-urgency task,
    the machine name shown beside a task, and the fixed badge and icon maps. */
module Dashboard {
  import opened Wrappers
  import opened Types
  import opened Lists

  const UpcomingLimit := 5
  const AttentionLimit := 3
  const NoName := "N/A"
  const NoUpcomingTasks := "No upcoming tasks."
  const AllGood := "All machines are looking good!"

  /** Badge styles. */
  datatype Variant = Destructive | Default | Secondary

  /** The icons shown for a machine without a picture. */
  datatype Icon = CarFront | Refrigerator | WashingMachine | AirVent | Wrench

  function IsPending(t: MaintenanceTask): bool
  {
    t.status == Pending
  }

  /** `upcomingTasks`: the first five pending tasks, in task-list order. */
  function UpcomingTasks(tasks: seq<MaintenanceTask>): (r: seq<MaintenanceTask>)
    ensures |r| <= UpcomingLimit
    ensures forall i :: 0 <= i < |r| ==> r[i].status == Pending
  {
    Take(Filter(tasks, IsPending), UpcomingLimit)
  }

  /** Some task of `m` has urgency High (the `some` test). */
  predicate HasHighTask(m: Machine, tasks: seq<MaintenanceTask>)
  {
    exists k :: 0 <= k < |tasks| && tasks[k].machineId == m.id && tasks[k].urgencyLevel == High
  }

  /** `machinesNeedingAttention`: the first three machines having a High task, in machine order. */
  function MachinesNeedingAttention(machines: seq<Machine>, tasks: seq<MaintenanceTask>): (r: seq<Machine>)
    ensures |r| <= AttentionLimit
    ensures forall i :: 0 <= i < |r| ==> HasHighTask(r[i], tasks)
  {
    Take(Filter(machines, m => HasHighTask(m, tasks)), AttentionLimit)
  }

  /** `machines.find(m => m.id === id)`: the first machine with that id, if any. */
  function FindMachine(machines: seq<Machine>, id: string): (r: Option<Machine>)
    ensures r.None? <==> forall k :: 0 <= k < |machines| ==> machines[k].id != id
    ensures r.Some? ==> exists k :: 0 <= k < |machines| && machines[k] == r.value && machines[k].id == id
                                    && forall j :: 0 <= j < k ==> machines[j].id != id
  {
    if machines == [] then None
    else if machines[0].id == id then Some(machines[0])
    else
      var rest := FindMachine(machines[1..], id);
      assert forall k :: 0 < k < |machines| ==> machines[k] == machines[1..][k - 1];
      rest
  }

  /** `machine?.name || 'N/A'`: the found machine's name unless there is no machine or the name
      is empty. */
  function MachineName(machines: seq<Machine>, id: string): (r: string)
    ensures r != ""
    ensures (forall k :: 0 <= k < |machines| ==> machines[k].id != id) ==> r == NoName
    ensures r != NoName ==> exists k :: 0 <= k < |machines| && machines[k].id == id && machines[k].name == r
    ensures FindMachine(machines, id).Some? && FindMachine(machines, id).value.name == "" ==> r == NoName
    ensures FindMachine(machines, id).Some? && FindMachine(machines, id).value.name != "" ==>
              r == FindMachine(machines, id).value.name
  {
    match FindMachine(machines, id)
    case None => NoName
    case Some(m) => if m.name != "" then m.name else NoName
  }

  /** `urgencyVariant`: High is shown as destructive, Low as secondary, Medium as the default. */
  function UrgencyVariant(u: Urgency): (r: Variant)
    ensures r == Destructive <==> u == High
    ensures r == Secondary <==> u == Low
  {
    match u
    case High => Destructive
    case Medium => Default
    case Low => Secondary
  }

  /** `getMachineIcon`: four categories have their own icon, the rest share the wrench. */
  function MachineIcon(c: Category): (r: Icon)
    ensures r == Wrench <==> c in {Garden, Electronics, Other}
  {
    match c
    case Vehicle => CarFront
    case KitchenAppliance => Refrigerator
    case Laundry => WashingMachine
    case HVAC => AirVent
    case _ => Wrench
  }

  /** The mobile list's note when there are no upcoming tasks. */
  function UpcomingNote(upcoming: seq<MaintenanceTask>): (r: Option<string>)
    ensures r.Some? <==> upcoming == []
  {
    if upcoming == [] then Some(NoUpcomingTasks) else None
  }

  /** The attention card's note when no machine needs attention. */
  function AttentionNote(attention: seq<Machine>): (r: Option<string>)
    ensures r.Some? <==> attention == []
  {
    if attention == [] then Some(AllGood) else None
  }

  // ---------------------------------------------------------------------------------------------
  // Properties of the selections

  /** The upcoming tasks are the first pending tasks: the whole pending list when it has at most
      five entries, its first five otherwise. They keep the task list's order. */
  lemma UpcomingArePendingPrefix(tasks: seq<MaintenanceTask>)
    ensures var pending := Filter(tasks, IsPending);
            && |UpcomingTasks(tasks)| == (if |pending| < UpcomingLimit then |pending| else UpcomingLimit)
            && UpcomingTasks(tasks) == pending[..|UpcomingTasks(tasks)|]
    ensures IsSubsequence(UpcomingTasks(tasks), tasks)
  {
    TakeOfFilterIsSubsequence(tasks, IsPending, UpcomingLimit);
  }

  /** Fewer than five upcoming tasks means every pending task is shown. */
  lemma FewUpcomingShowsAllPending(tasks: seq<MaintenanceTask>)
    requires |UpcomingTasks(tasks)| < UpcomingLimit
    ensures forall i :: 0 <= i < |tasks| && tasks[i].status == Pending ==> tasks[i] in UpcomingTasks(tasks)
  {
    TakeShortKeepsAll(tasks, IsPending, UpcomingLimit);
  }

  /** The attention list keeps machine order, and a machine appears in it at most once when the
      machine list has no repeats, however many High tasks it has. */
  lemma AttentionInMachineOrder(machines: seq<Machine>, tasks: seq<MaintenanceTask>)
    ensures IsSubsequence(MachinesNeedingAttention(machines, tasks), machines)
    ensures Distinct(machines) ==> Distinct(MachinesNeedingAttention(machines, tasks))
  {
    var p := m => HasHighTask(m, tasks);
    TakeOfFilterIsSubsequence(machines, p, AttentionLimit);
    if Distinct(machines) {
      SubsequenceOfDistinct(MachinesNeedingAttention(machines, tasks), machines);
    }
  }

  /** The machines needing attention are the first ones with a High task: all of them when there
      are at most three, the first three otherwise. */
  lemma AttentionAreFirstMatches(machines: seq<Machine>, tasks: seq<MaintenanceTask>)
    ensures var flagged := Filter(machines, m => HasHighTask(m, tasks));
            && |MachinesNeedingAttention(machines, tasks)| == (if |flagged| < AttentionLimit then |flagged| else AttentionLimit)
            && MachinesNeedingAttention(machines, tasks) == flagged[..|MachinesNeedingAttention(machines, tasks)|]
  {
    var p := m => HasHighTask(m, tasks);
    TakeOfFilterIsSubsequence(machines, p, AttentionLimit);
  }

  /** Fewer than three machines listed means no other machine has a High task. */
  lemma FewAttentionShowsAll(machines: seq<Machine>, tasks: seq<MaintenanceTask>)
    requires |MachinesNeedingAttention(machines, tasks)| < AttentionLimit
    ensures forall i :: 0 <= i < |machines| && HasHighTask(machines[i], tasks) ==>
              machines[i] in MachinesNeedingAttention(machines, tasks)
  {
    var p := m => HasHighTask(m, tasks);
    TakeShortKeepsAll(machines, p, AttentionLimit);
  }

  /** The name shown is the first matching machine's name, when that name is not empty. */
  lemma MachineNameOfFirstMatch(machines: seq<Machine>, k: nat)
    requires k < |machines| && machines[k].name != ""
    requires forall j :: 0 <= j < k ==> machines[j].id != machines[k].id
    ensures MachineName(machines, machines[k].id) == machines[k].name
  {
    var found := FindMachine(machines, machines[k].id);
    var w :| 0 <= w < |machines| && machines[w] == found.value && machines[w].id == machines[k].id
             && forall j :: 0 <= j < w ==> machines[j].id != machines[k].id;
    assert w == k;
  }

  /** Each urgency gets its own badge style. */
  lemma UrgencyVariantDistinct(u: Urgency, v: Urgency)
    ensures UrgencyVariant(u) == UrgencyVariant(v) <==> u == v
  {
  }

  /** The four dedicated icons each belong to one category only. */
  lemma DedicatedIconsDistinct(c: Category, d: Category)
    requires MachineIcon(c) != Wrench
    ensures MachineIcon(c) == MachineIcon(d) <==> c == d
  {
  }

  /** A task's machine is shown as "N/A" when the first machine with its id has an empty name,
      even if a later machine with the same id has a name. */
  lemma EmptyNameShowsNoName(machines: seq<Machine>, k: nat)
    requires k < |machines| && machines[k].name == ""
    requires forall j :: 0 <= j < k ==> machines[j].id != machines[k].id
    ensures MachineName(machines, machines[k].id) == NoName
  {
    var found := FindMachine(machines, machines[k].id);
    var w :| 0 <= w < |machines| && machines[w] == found.value && machines[w].id == machines[k].id
             && forall j :: 0 <= j < w ==> machines[j].id != machines[k].id;
    assert w == k;
  }
}
