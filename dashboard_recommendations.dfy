/** The dashboard's AI-recommendations card (src/components/dashboard/ai-dashboard-recommendations.tsx):
    the user picks a machine and may give a location; the card then builds the request, calls the
    server action and shows the recommendation. */
module DashboardRecommendations {
  import opened Wrappers
  import opened JsonValues
  import opened Types
  import opened Schemas
  import Dashboard
  import Actions
  import PredictiveCard

  /** How a press of the button ended. */
  datatype Outcome =
    | NoMachineSelected   // the "No Machine Selected" notice, no request
    | UnknownMachine      // the selected id matches no machine: nothing happens
    | Requested(result: Result<RecommendationsOutput, string>)

  /** `!selectedMachineId`: nothing selected, or the empty id. */
  predicate NothingSelected(selected: Option<string>)
  {
    selected.None? || selected.value == ""
  }

  /** The request as the card writes it: `machineType` instead of `category`, the projected
      history, and the location text exactly as entered, the empty text included. */
  function CardRequestFields(m: Machine, location: string): (r: map<string, Json>)
    ensures "category" !in r && "machineType" in r && r["machineType"] == JStr(CategoryName(m.category))
    ensures "maintenanceHistory" in r && r["maintenanceHistory"].JArr? && |r["maintenanceHistory"].items| == |m.maintenanceHistory|
    ensures "location" in r && r["location"] == JStr(location)
  {
    map["machineType" := JStr(CategoryName(m.category)), "brand" := JStr(m.brand), "model" := JStr(m.model),
        "usageFrequency" := JStr(UsageName(m.usageFrequency)), "lastMaintenanceDate" := JStr(m.lastMaintenance),
        "purchaseDate" := JStr(m.purchaseDate),
        "maintenanceHistory" := HistoryJson(PredictiveCard.Projected(m.maintenanceHistory)),
        "location" := JStr(location)]
  }

  /** As written, every request the card can build is rejected for its missing `category`. */
  lemma AsWrittenRequestRejected(m: Machine, location: string,
                                 flow: RecommendationsInput<string> -> Result<RecommendationsOutput, string>)
    ensures ParseRecommendationsInput(JObj(CardRequestFields(m, location))) == None
    ensures Actions.RunAiRecommendations(JObj(CardRequestFields(m, location)), flow)
            == Failure(Actions.InvalidRecommendations)
  {
    var f := CardRequestFields(m, location);
    assert "category" !in f;
    RecommendationsWithoutCategoryRejected(f);
  }

  /** The request under the schema's names; the location is passed as entered. */
  function IntendedInput(m: Machine, location: string): (r: RecommendationsInput<seq<HistoryItem>>)
    ensures r.location == Some(location)
    ensures r.maintenanceHistory == Some(PredictiveCard.Projected(m.maintenanceHistory))
  {
    RecommendationsInput(CategoryName(m.category), m.brand, m.model, UsageName(m.usageFrequency),
      m.lastMaintenance, m.purchaseDate, Some(PredictiveCard.Projected(m.maintenanceHistory)), Some(location))
  }

  function CorrectedRequest(m: Machine, location: string): Json
  {
    RecommendationsInputJson(IntendedInput(m, location))
  }

  /** The corrected request is accepted with the location unchanged, even when it is empty, and
      the history keeps one entry per record in order. */
  lemma CorrectedRequestAccepted(m: Machine, location: string)
    ensures ParseRecommendationsInput(CorrectedRequest(m, location)) == Some(IntendedInput(m, location))
    ensures IntendedInput(m, location).category == CategoryName(m.category)
    ensures |IntendedInput(m, location).maintenanceHistory.value| == |m.maintenanceHistory|
  {
    RecommendationsInputRoundTrip(IntendedInput(m, location));
  }

  /** The card's state. */
  class RecommendationCard {
    const machines: seq<Machine>
    var selectedMachineId: Option<string>
    var location: string
    var isLoading: bool
    var recommendation: Option<RecommendationsOutput>

    constructor(ms: seq<Machine>)
      ensures machines == ms && selectedMachineId == None && location == ""
      ensures !isLoading && recommendation == None
    {
      machines := ms;
      selectedMachineId := None;
      location := "";
      isLoading := false;
      recommendation := None;
    }

    /** Choosing a machine in the list. */
    method Select(id: string)
      modifies this
      ensures selectedMachineId == Some(id)
      ensures location == old(location) && isLoading == old(isLoading) && recommendation == old(recommendation)
    {
      selectedMachineId := Some(id);
    }

    /** Typing a location; the box is disabled until a machine is selected. */
    method TypeLocation(text: string)
      modifies this
      ensures location == if NothingSelected(old(selectedMachineId)) then old(location) else text
      ensures selectedMachineId == old(selectedMachineId)
      ensures isLoading == old(isLoading) && recommendation == old(recommendation)
    {
      if !NothingSelected(selectedMachineId) {
        location := text;
      }
    }

    /** `handleRecommend`, sending the corrected request. Without a selection, or with an id that
        matches no machine, nothing changes and no request is made. Otherwise the recommendation
        is cleared, the first machine with the id is asked about, and afterwards the card shows
        the action's result, or nothing when it failed; loading is over in every case. */
    method HandleRecommend(flow: RecommendationsInput<string> -> Result<RecommendationsOutput, string>)
      returns (outcome: Outcome)
      modifies this
      ensures selectedMachineId == old(selectedMachineId) && location == old(location)
      ensures NothingSelected(old(selectedMachineId)) ==>
                outcome == NoMachineSelected && isLoading == old(isLoading) && recommendation == old(recommendation)
      ensures !NothingSelected(old(selectedMachineId)) ==>
                var found := Dashboard.FindMachine(machines, old(selectedMachineId).value);
                && (found.None? ==>
                      outcome == UnknownMachine && isLoading == old(isLoading) && recommendation == old(recommendation))
                && (found.Some? ==>
                      var result := Actions.RunAiRecommendations(CorrectedRequest(found.value, old(location)), flow);
                      && outcome == Requested(result) && !isLoading
                      && recommendation == if result.Success? then Some(result.value) else None)
    {
      if NothingSelected(selectedMachineId) {
        return NoMachineSelected;
      }
      var found := Dashboard.FindMachine(machines, selectedMachineId.value);
      if found.None? {
        return UnknownMachine;
      }
      var result := Ask(found.value, flow);
      outcome := Requested(result);
    }

    /** The part of the handler after the guards, for the machine `m` that was found. */
    method Ask(m: Machine, flow: RecommendationsInput<string> -> Result<RecommendationsOutput, string>)
      returns (result: Result<RecommendationsOutput, string>)
      modifies this
      ensures result == Actions.RunAiRecommendations(CorrectedRequest(m, old(location)), flow)
      ensures !isLoading && recommendation == if result.Success? then Some(result.value) else None
      ensures selectedMachineId == old(selectedMachineId) && location == old(location)
    {
      isLoading := true;
      recommendation := None;
      result := Actions.RunAiRecommendations(CorrectedRequest(m, location), flow);
      if result.Success? {
        recommendation := Some(result.value);
      }
      isLoading := false;
    }
  }
}
