/** The predictive-maintenance flow (src/ai/flows/predictive-maintenance.ts): render the prompt,
    ask the model, and fail when it gives no prediction. */
module PredictiveFlow {
  import opened Wrappers
  import opened Text
  import opened Schemas
  import opened ModelCalls

  /** The request as it reaches the flow: the history is the JSON text the server action made. */
  type FlowInput = PredictiveInput<string>

  const NoPrediction := "Could not generate a prediction."

  /** Handlebars truthiness of the history: present and not the empty string. */
  predicate HistoryTruthy(h: Option<string>)
  {
    h.Some? && h.value != ""
  }

  function IntroLines(): seq<string>
  {
    [Instructions(), "", "Machine Information:"]
  }

  // The template's long sentences are written as concatenations of short literals.
  function Instructions(): string
  {
    "You are an AI " + "assistant for the " + "Homewise app. Given " + "the following " +
      "information about a " + "household machine, " + "predict the next " + "maintenance task, its " +
      "due date, the " + "estimated cost, and " + "an urgency level " + "(Low, Medium, or " + "High)."
  }

  function OutputRequest(): string
  {
    "Your output must be a " + "JSON object with the " + "fields: taskName, " +
      "nextMaintenanceDate, " + "estimatedCost, and " + "urgencyLevel."
  }

  /** The seven machine facts, in the template's order. */
  function MachineLines(x: FlowInput): seq<string>
  {
    ["- Category: " + x.category,
     "- Brand: " + x.brand,
     "- Model: " + x.model,
     "- Purchased: " + x.purchaseDate,
     "- Warranty Expiry: " + x.warrantyExpiry,
     "- Last Service: " + x.lastMaintenance,
     "- Usage: " + x.usageFrequency]
  }

  /** The `{{#if maintenanceHistory}}` block; its standalone tag lines leave no trace. */
  function HistoryLines(x: FlowInput): seq<string>
  {
    if HistoryTruthy(x.maintenanceHistory) then ["- History: " + x.maintenanceHistory.value] else []
  }

  function OutroLines(): seq<string>
  {
    ["", OutputRequest()]
  }

  /** The lines of the rendered prompt. */
  function PromptLines(x: FlowInput): seq<string>
  {
    IntroLines() + MachineLines(x) + HistoryLines(x) + OutroLines()
  }

  /** The rendered prompt text (the template has no trailing newline). */
  function RenderPrompt(x: FlowInput): string
  {
    JoinLines(PromptLines(x))
  }

  /** `predictMaintenance`, which returns whatever `predictMaintenanceFlow` returns: a missing
      prediction becomes the flow's own error, a failed call keeps its error, and a prediction is
      returned unchanged. */
  function PredictMaintenance(x: FlowInput, generate: string -> ModelCall<PredictiveOutput>)
    : (r: Result<PredictiveOutput, string>)
    ensures r.Success? <==> generate(RenderPrompt(x)).Replied? && generate(RenderPrompt(x)).output.Some?
    ensures r.Success? ==> r.value == generate(RenderPrompt(x)).output.value
    ensures generate(RenderPrompt(x)) == Replied(None) ==> r == Failure(NoPrediction)
  {
    match generate(RenderPrompt(x))
    case CallFailed(reason) => Failure(reason)
    case Replied(output) => if output.Some? then Success(output.value) else Failure(NoPrediction)
  }

  lemma InstructionsUndashed(p: string)
    requires |p| > 0 && p[0] == '-'
    ensures !StartsWith(Instructions(), p)
  {
    assert Instructions()[0] == 'Y';
    PrefixMismatch(Instructions(), "", p, 0);
  }

  lemma OutputRequestUndashed(p: string)
    requires |p| > 0 && p[0] == '-'
    ensures !StartsWith(OutputRequest(), p)
  {
    assert OutputRequest()[0] == 'Y';
    PrefixMismatch(OutputRequest(), "", p, 0);
  }

  /** The fixed lines before and after the machine facts never start with a dash. */
  lemma FixedLinesUndashed(p: string)
    requires |p| > 0 && p[0] == '-'
    ensures WithPrefix(IntroLines(), p) == [] && WithPrefix(OutroLines(), p) == []
  {
    IntroUndashed(p);
    OutroUndashed(p);
  }

  lemma IntroUndashed(p: string)
    requires |p| > 0 && p[0] == '-'
    ensures WithPrefix(IntroLines(), p) == []
  {
    InstructionsUndashed(p);
    MismatchAt("Machine Information:", p, 0);
    WithPrefixOfThree(Instructions(), "", "Machine Information:", p);
  }

  lemma OutroUndashed(p: string)
    requires |p| > 0 && p[0] == '-'
    ensures WithPrefix(OutroLines(), p) == []
  {
    OutputRequestUndashed(p);
    WithPrefixOne("", p);
    WithPrefixOne(OutputRequest(), p);
    WithPrefixConcat([""], [OutputRequest()], p);
  }

  /** What survives a prefix filter of the prompt: the parts' survivors, in order. */
  lemma PromptWithPrefix(x: FlowInput, p: string)
    requires |p| > 0 && p[0] == '-'
    ensures WithPrefix(PromptLines(x), p) == WithPrefix(MachineLines(x), p) + WithPrefix(HistoryLines(x), p)
  {
    FixedLinesUndashed(p);
    WithPrefixOfFour(IntroLines(), MachineLines(x), HistoryLines(x), OutroLines(), p);
  }

  /** The lines starting with "- " are exactly the seven machine facts in the template's order,
      then the history line when there is one: nothing else in the prompt looks like a fact. */
  lemma FactLines(x: FlowInput)
    ensures WithPrefix(PromptLines(x), "- ") == MachineLines(x) + HistoryLines(x)
  {
    PromptWithPrefix(x, "- ");
    WithPrefixAll(MachineLines(x), "- ");
    WithPrefixAll(HistoryLines(x), "- ");
  }

  /** The "- History: " line appears exactly when the history is present and non-empty, and then
      carries the history text. */
  lemma HistoryLineIffTruthy(x: FlowInput)
    ensures WithPrefix(PromptLines(x), "- History: ")
            == if HistoryTruthy(x.maintenanceHistory) then ["- History: " + x.maintenanceHistory.value] else []
  {
    var p := "- History: ";
    var machine := MachineLines(x);
    forall k | 0 <= k < |machine| ensures !StartsWith(machine[k], p) {
      if k == 0 { PrefixMismatch("- Category: ", x.category, p, 2); }
      else if k == 1 { PrefixMismatch("- Brand: ", x.brand, p, 2); }
      else if k == 2 { PrefixMismatch("- Model: ", x.model, p, 2); }
      else if k == 3 { PrefixMismatch("- Purchased: ", x.purchaseDate, p, 2); }
      else if k == 4 { PrefixMismatch("- Warranty Expiry: ", x.warrantyExpiry, p, 2); }
      else if k == 5 { PrefixMismatch("- Last Service: ", x.lastMaintenance, p, 2); }
      else { PrefixMismatch("- Usage: ", x.usageFrequency, p, 2); }
    }
    WithPrefixNone(machine, p);
    WithPrefixAll(HistoryLines(x), p);
    PromptWithPrefix(x, p);
  }
}
