/** The predictive-maintenance card of a machine (src/components/machines/predictive-maintenance.tsx):
    it builds the request from the machine, calls the server action, and shows the prediction. */
module PredictiveCard {
  import opened Wrappers
  import opened JsonValues
  import opened Types
  import opened Schemas
  import Dashboard
  import Actions

  /** `maintenanceHistory.map(h => ({ task, date, cost }))`: each record cut down to the three
      fields the AI layer reads, one entry per record in the same order. */
  function Projected(history: seq<MaintenanceRecord>): (r: seq<HistoryItem>)
    ensures |r| == |history|
  {
    seq(|history|, i requires 0 <= i < |history| => HistoryItem(history[i].task, history[i].date, history[i].cost))
  }

  /** The request the card builds: seven fields copied one to one, and the projected history. */
  function RequestFor(m: Machine): (r: PredictiveInput<seq<HistoryItem>>)
    ensures r.maintenanceHistory == Some(Projected(m.maintenanceHistory))
  {
    PredictiveInput(CategoryName(m.category), m.brand, m.model, m.lastMaintenance, m.purchaseDate,
      UsageName(m.usageFrequency), m.warrantyExpiry, Some(Projected(m.maintenanceHistory)))
  }

  /** The request as the JSON-like value handed to the action. */
  function RequestJson(m: Machine): Json
  {
    PredictiveInputJson(RequestFor(m))
  }

  /** The card's badge map, the same as the dashboard's. */
  function PredictionBadge(p: PredictiveOutput): (r: Dashboard.Variant)
    ensures r == Dashboard.Destructive <==> p.urgencyLevel == High
  {
    Dashboard.UrgencyVariant(p.urgencyLevel)
  }

  /** Every machine's request passes the schema check and reads back with the machine's own
      values; each history record keeps its task, date and cost, in order. */
  lemma RequestAccepted(m: Machine)
    ensures ParsePredictiveInput(RequestJson(m)) == Some(RequestFor(m))
    ensures var x := RequestFor(m);
            && x.category == CategoryName(m.category) && x.brand == m.brand && x.model == m.model
            && x.lastMaintenance == m.lastMaintenance && x.purchaseDate == m.purchaseDate
            && x.usageFrequency == UsageName(m.usageFrequency) && x.warrantyExpiry == m.warrantyExpiry
    ensures forall i :: 0 <= i < |m.maintenanceHistory| ==>
              var h := Projected(m.maintenanceHistory)[i];
              h.task == m.maintenanceHistory[i].task && h.date == m.maintenanceHistory[i].date
              && h.cost == m.maintenanceHistory[i].cost
  {
    PredictiveInputRoundTrip(RequestFor(m));
  }

  /** The card's state for one machine. */
  class PredictionPanel {
    const machine: Machine
    var isLoading: bool
    var prediction: Option<PredictiveOutput>

    constructor(m: Machine)
      ensures machine == m && !isLoading && prediction == None
    {
      machine := m;
      isLoading := false;
      prediction := None;
    }

    /** `handlePredict` with `flow` standing for `predictMaintenance`: the old prediction is cleared
        before the call; afterwards the panel shows the action's prediction, or none when the
        action failed, and loading is over in both cases. */
    method HandlePredict(flow: PredictiveInput<string> -> Result<PredictiveOutput, string>)
      modifies this
      ensures !isLoading
      ensures var result := Actions.RunPredictiveMaintenance(RequestJson(machine), flow);
              prediction == if result.Success? then Some(result.value) else None
    {
      isLoading := true;
      prediction := None;
      var result := Actions.RunPredictiveMaintenance(RequestJson(machine), flow);
      if result.Success? {
        prediction := Some(result.value);
      }
      isLoading := false;
    }
  }

  /** Since the request is always accepted, the panel shows a prediction exactly when the flow,
      given the machine's request with its history as JSON text, produces one. */
  lemma PredictionShownIffFlowSucceeds(m: Machine, flow: PredictiveInput<string> -> Result<PredictiveOutput, string>)
    ensures var result := Actions.RunPredictiveMaintenance(RequestJson(m), flow);
            var sent := Actions.PredictiveFlowRequest(RequestFor(m));
            && (result.Success? <==> flow(sent).Success?)
            && (result.Success? ==> result.value == flow(sent).value)
  {
    RequestAccepted(m);
  }
}
