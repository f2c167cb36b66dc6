/** The AI-recommendations card of a machine (src/components/machines/ai-recommendations.tsx):
    it summarises the machine's history as one line of text, builds the request, calls the server
    action, and shows the recommendation. */
module MachineRecommendations {
  import opened Wrappers
  import opened JsonValues
  import opened Text
  import opened Types
  import opened Schemas
  import Actions
  import PredictiveCard

  const NoHistory := "None"

  /** One record written `date: task ($cost)`. */
  function EntryText(r: MaintenanceRecord): (t: string)
    ensures |t| > |r.date| + 2 && t[..|r.date| + 2] == r.date + ": "
    ensures t[|t| - 1] == ')'
  {
    r.date + ": " + r.task + " ($" + IntToDecimal(r.cost) + ")"
  }

  function Entries(history: seq<MaintenanceRecord>): (r: seq<string>)
    ensures |r| == |history|
  {
    seq(|history|, i requires 0 <= i < |history| => EntryText(history[i]))
  }

  /** The entries joined by ", ", or "None" when that join is empty. */
  function HistorySummary(history: seq<MaintenanceRecord>): (r: string)
    ensures r != ""
  {
    var joined := Join(Entries(history), ", ");
    if joined == "" then NoHistory else joined
  }

  lemma EntryTextLength(r: MaintenanceRecord)
    ensures |EntryText(r)| >= 7
  {
    NatToDecimalDigits(if r.cost < 0 then -r.cost else r.cost);
  }

  /** A non-empty history's join holds each entry and one separator between neighbours. */
  lemma JoinedLength(history: seq<MaintenanceRecord>)
    requires history != []
    ensures |Join(Entries(history), ", ")| == TotalLength(Entries(history)) + 2 * (|history| - 1)
    ensures |Join(Entries(history), ", ")| >= 7
  {
    var parts := Entries(history);
    JoinLength(parts, ", ");
    EntryTextLength(history[0]);
    assert TotalLength(parts) >= |parts[0]|;
  }

  /** The summary is "None" exactly when the machine has no history: no history summary can read
      "None", since every entry is at least seven characters long. */
  lemma SummaryNoneIffEmpty(history: seq<MaintenanceRecord>)
    ensures HistorySummary(history) == NoHistory <==> history == []
  {
    if history != [] {
      JoinedLength(history);
    }
  }

  /** A summary of `n` entries has exactly `n - 1` separators: its length is the entries' total
      length plus two characters per separator. */
  lemma SummarySeparators(history: seq<MaintenanceRecord>)
    requires history != []
    ensures |HistorySummary(history)| == TotalLength(Entries(history)) + 2 * (|history| - 1)
  {
    JoinedLength(history);
  }

  /** A single record's summary is its entry alone; with `SummaryAppend`, every non-empty summary
      is the entries' texts in order, one ", " between neighbours. */
  lemma SummaryOfOne(r: MaintenanceRecord)
    ensures HistorySummary([r]) == EntryText(r)
  {
    EntryTextLength(r);
  }

  /** Entries appear in the history's order: a record added at the end adds its entry at the end. */
  lemma SummaryAppend(history: seq<MaintenanceRecord>, r: MaintenanceRecord)
    requires history != []
    ensures HistorySummary(history + [r]) == HistorySummary(history) + ", " + EntryText(r)
  {
    assert Entries(history + [r]) == Entries(history) + [EntryText(r)];
    JoinAppend(Entries(history), [EntryText(r)], ", ");
    JoinedLength(history);
    JoinedLength(history + [r]);
  }

  // ---------------------------------------------------------------------------------------------
  // The request

  /** The request as the card writes it: the category under `machineType`, the last service date
      under `lastMaintenanceDate`, the history as its summary text, and no location. */
  function CardRequestFields(m: Machine): (r: map<string, Json>)
    ensures "category" !in r && "machineType" in r && r["machineType"] == JStr(CategoryName(m.category))
    ensures "maintenanceHistory" in r && r["maintenanceHistory"] == JStr(HistorySummary(m.maintenanceHistory))
  {
    map["machineType" := JStr(CategoryName(m.category)), "brand" := JStr(m.brand), "model" := JStr(m.model),
        "usageFrequency" := JStr(UsageName(m.usageFrequency)), "lastMaintenanceDate" := JStr(m.lastMaintenance),
        "purchaseDate" := JStr(m.purchaseDate), "maintenanceHistory" := JStr(HistorySummary(m.maintenanceHistory))]
  }

  /** As written, the request lacks `category` and carries its history as text, so the action
      rejects it for every machine and every flow: the card can only end in its failure notice. */
  lemma AsWrittenRequestRejected(m: Machine, flow: RecommendationsInput<string> -> Result<RecommendationsOutput, string>)
    ensures ParseRecommendationsInput(JObj(CardRequestFields(m))) == None
    ensures Actions.RunAiRecommendations(JObj(CardRequestFields(m)), flow) == Failure(Actions.InvalidRecommendations)
  {
    var f := CardRequestFields(m);
    assert "category" !in f;
    RecommendationsWithoutCategoryRejected(f);
    RecommendationsHistoryMustBeArray(f);
  }

  /** The request the schema asks for: the same machine facts under the schema's names, with the
      history as its list of task, date and cost. */
  function IntendedInput(m: Machine): (r: RecommendationsInput<seq<HistoryItem>>)
    ensures r.location == None
    ensures r.maintenanceHistory == Some(PredictiveCard.Projected(m.maintenanceHistory))
  {
    RecommendationsInput(CategoryName(m.category), m.brand, m.model, UsageName(m.usageFrequency),
      m.lastMaintenance, m.purchaseDate, Some(PredictiveCard.Projected(m.maintenanceHistory)), None)
  }

  function CorrectedRequest(m: Machine): Json
  {
    RecommendationsInputJson(IntendedInput(m))
  }

  /** The corrected request is accepted for every machine, with the category in `category` and
      the last service date in `lastMaintenanceDate`, and the flow decides the outcome. */
  lemma CorrectedRequestAccepted(m: Machine, flow: RecommendationsInput<string> -> Result<RecommendationsOutput, string>)
    ensures ParseRecommendationsInput(CorrectedRequest(m)) == Some(IntendedInput(m))
    ensures IntendedInput(m).category == CategoryName(m.category)
            && IntendedInput(m).lastMaintenanceDate == m.lastMaintenance
    ensures var sent := Actions.RecommendationsFlowRequest(IntendedInput(m));
            var result := Actions.RunAiRecommendations(CorrectedRequest(m), flow);
            (result.Success? <==> flow(sent).Success?) && (result.Success? ==> result == flow(sent))
  {
    RecommendationsInputRoundTrip(IntendedInput(m));
  }

  /** The card's state for one machine. */
  class RecommendationPanel {
    const machine: Machine
    var isLoading: bool
    var recommendation: Option<RecommendationsOutput>

    constructor(m: Machine)
      ensures machine == m && !isLoading && recommendation == None
    {
      machine := m;
      isLoading := false;
      recommendation := None;
    }

    /** `handleRecommend`, sending the corrected request: the old recommendation is cleared first;
        afterwards the panel shows the action's result, or nothing when it failed, and loading is
        over in both cases. */
    method HandleRecommend(flow: RecommendationsInput<string> -> Result<RecommendationsOutput, string>)
      modifies this
      ensures !isLoading
      ensures var result := Actions.RunAiRecommendations(CorrectedRequest(machine), flow);
              recommendation == if result.Success? then Some(result.value) else None
    {
      isLoading := true;
      recommendation := None;
      var result := Actions.RunAiRecommendations(CorrectedRequest(machine), flow);
      if result.Success? {
        recommendation := Some(result.value);
      }
      isLoading := false;
    }
  }
}
