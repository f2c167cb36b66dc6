/** The records and enumerations of the application (src/lib/types.ts). */
module Types {
  import opened Wrappers

  /** The seven machine categories. */
  datatype Category = Vehicle | KitchenAppliance | HVAC | Garden | Electronics | Laundry | Other

  /** The literal each category is written as. */
  function CategoryName(c: Category): string
  {
    match c
    case Vehicle => "Vehicle"
    case KitchenAppliance => "Kitchen Appliance"
    case HVAC => "HVAC"
    case Garden => "Garden"
    case Electronics => "Electronics"
    case Laundry => "Laundry"
    case Other => "Other"
  }

  /** Urgency of a task: exactly three values. */
  datatype Urgency = Low | Medium | High

  function UrgencyName(u: Urgency): string
  {
    match u
    case Low => "Low"
    case Medium => "Medium"
    case High => "High"
  }

  /** The urgency a text names, if it is one of the three literals exactly (case-sensitive). */
  function ParseUrgency(s: string): (r: Option<Urgency>)
    ensures r.Some? <==> s == "Low" || s == "Medium" || s == "High"
    ensures r.Some? ==> UrgencyName(r.value) == s
  {
    if s == "Low" then Some(Low)
    else if s == "Medium" then Some(Medium)
    else if s == "High" then Some(High)
    else None
  }

  /** Status of a task: exactly three values. */
  datatype Status = Pending | Completed | Overdue

  /** How often a machine is used: one of four values. */
  datatype UsageFrequency = Daily | Weekly | Monthly | Rarely

  function UsageName(f: UsageFrequency): string
  {
    match f
    case Daily => "Daily"
    case Weekly => "Weekly"
    case Monthly => "Monthly"
    case Rarely => "Rarely"
  }

  /** One entry of a machine's maintenance log; `vendor` and `notes` are optional.
      Costs are modelled as integers. */
  datatype MaintenanceRecord = MaintenanceRecord(
    id: string,
    task: string,
    date: string,
    cost: int,
    vendor: Option<string>,
    notes: Option<string>)

  /** A registered machine; `serialNumber` is its only optional field. */
  datatype Machine = Machine(
    id: string,
    userId: string,
    name: string,
    category: Category,
    brand: string,
    model: string,
    serialNumber: Option<string>,
    purchaseDate: string,
    warrantyExpiry: string,
    lastMaintenance: string,
    usageFrequency: UsageFrequency,
    maintenanceHistory: seq<MaintenanceRecord>,
    imageUrl: string,
    imageHint: string)

  /** A scheduled maintenance task for the machine whose id is `machineId`. */
  datatype MaintenanceTask = MaintenanceTask(
    id: string,
    machineId: string,
    taskName: string,
    dueDate: string,
    status: Status,
    estimatedCost: int,
    urgencyLevel: Urgency,
    notificationSent: bool)

  /** Distinct categories are written as distinct literals, so a category survives the trip
      through its text. */
  lemma CategoryNamesDistinct(c: Category, d: Category)
    ensures CategoryName(c) == CategoryName(d) <==> c == d
  {
  }

  /** Each urgency's literal reads back as that urgency. */
  lemma UrgencyRoundTrip(u: Urgency)
    ensures ParseUrgency(UrgencyName(u)) == Some(u)
  {
  }
}
