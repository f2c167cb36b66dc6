/** The maintenance-recommendations flow (src/ai/flows/ai-maintenance-recommendations.ts): render
    the prompt with its history loop and location branch, ask the model, and fail when it gives no
    recommendations. */
module RecommendationsFlow {
  import opened Wrappers
  import opened Text
  import opened Schemas
  import opened ModelCalls

  /** The request in the flow's declared shape, with the history as structured entries. */
  type FlowInput = RecommendationsInput<seq<HistoryItem>>

  const NoRecommendations := "Unable to generate recommendations."

  /** Handlebars truthiness of the history: present and not the empty list. */
  predicate HistoryTruthy(h: Option<seq<HistoryItem>>)
  {
    h.Some? && h.value != []
  }

  /** Handlebars truthiness of the location: present and not the empty string. */
  predicate LocationTruthy(l: Option<string>)
  {
    l.Some? && l.value != ""
  }

  /** The template's fixed sentences. The prompt is built over any wording; the properties below
      hold for every wording that fits the markers, and the template's own wording fits them.
      The sentences are parameters so that the proofs about the prompt's structure see only the
      facts `WordingFits` gives, never the long literals: `TemplateWordingFits` checks those
      literals once, and each property of `PromptLines` is the general one applied to
      `TemplateWording()`. */
  datatype Wording = Wording(
    purpose: string,
    request: string,
    geolocationAdvice: string,
    genericAdvice: string,
    closing: string)

  function TemplateWording(): Wording
  {
    Wording(Purpose(), Request(), GeolocationAdvice(), GenericAdvice(), Closing())
  }

  // The template's long sentences are written as concatenations of short literals.
  function Purpose(): string
  {
    "You are an AI " + "assistant for the " + "Homewise app. Your " + "purpose is to provide " +
      "users with " + "recommendations on " + "how to save costs on " + "maintaining their " +
      "machines and vehicles."
  }

  function Request(): string
  {
    "  Given the following " + "information about a " + "household machine, " +
      "provide cost-saving " + "tips, recommend " + "service providers, " + "estimate its " +
      "remaining useful " + "life, and highlight " + "any critical " + "attention needed."
  }

  function GeolocationAdvice(): string
  {
    "  When recommending " + "service providers, " + "use the " + "getGeolocationTool to " +
      "find the coordinates " + "for the user's " + "location. Then, " + "suggest specific, " +
      "real service " + "providers or types of " + "service providers " + "(like 'Toyota " +
      "dealership' or " + "'certified auto " + "repair shops') near " + "that location. For " +
      "non-vehicle machines, " + "suggest general " + "service types " + "available in the area."
  }

  function GenericAdvice(): string
  {
    "  No specific " + "location was " + "provided. When " + "recommending service " +
      "providers, please " + "suggest generic " + "options like \"a local " + "auto shop,\" or \"a " +
      "certified appliance " + "repair service\"."
  }

  function Closing(): string
  {
    "  Your response " + "should be structured " + "as a JSON object that " + "strictly adheres to " +
      "the output schema."
  }

  const LocatedPrefix := "  The user has provided "
  const GenericPrefix := "  No specific "
  const TaskPrefix := "  - Task: "
  const HistoryHeader := "  Maintenance History:"

  /** `s` starts with none of the markers the properties look for. */
  predicate Unmarked(s: string)
  {
    !StartsWith(s, TaskPrefix) && !StartsWith(s, HistoryHeader) && !StartsWith(s, LocatedPrefix)
    && !StartsWith(s, GenericPrefix)
  }

  /** The fixed sentences carry no marker, except that the generic advice opens with its own. */
  predicate WordingFits(w: Wording)
  {
    Unmarked(w.purpose) && Unmarked(w.request) && Unmarked(w.geolocationAdvice) && Unmarked(w.closing)
    && StartsWith(w.genericAdvice, GenericPrefix) && !StartsWith(w.genericAdvice, TaskPrefix)
    && !StartsWith(w.genericAdvice, HistoryHeader) && !StartsWith(w.genericAdvice, LocatedPrefix)
  }

  /** The six machine facts, in the template's order. */
  function MachineLines(x: FlowInput): seq<string>
  {
    ["  Machine Type: " + x.category,
     "  Brand: " + x.brand,
     "  Model: " + x.model,
     "  Usage Frequency: " + x.usageFrequency,
     "  Last Maintenance Date: " + x.lastMaintenanceDate,
     "  Purchase Date: " + x.purchaseDate]
  }

  /** Everything up to the history block. */
  function Before(x: FlowInput, w: Wording): seq<string>
  {
    [w.purpose, "", w.request, ""] + MachineLines(x) + [""]
  }

  /** One iteration of `{{#each maintenanceHistory}}`; the cost prints as JavaScript prints an integer. */
  function TaskLine(h: HistoryItem): string
  {
    TaskPrefix + TaskDetails(h)
  }

  function TaskDetails(h: HistoryItem): string
  {
    h.task + ", Date: " + h.date + ", Cost: " + IntToDecimal(h.cost)
  }

  /** The `{{#each}}` loop: one line per entry, in order. */
  function TaskLines(hs: seq<HistoryItem>): seq<string>
  {
    seq(|hs|, i requires 0 <= i < |hs| => TaskLine(hs[i]))
  }

  /** The `{{#if maintenanceHistory}}` block; its standalone tag lines leave no trace. */
  function HistoryBlock(x: FlowInput): seq<string>
  {
    if HistoryTruthy(x.maintenanceHistory) then [HistoryHeader] + TaskLines(x.maintenanceHistory.value) else []
  }

  function LocatedLine(location: string): string
  {
    LocatedPrefix + LocatedDetails(location)
  }

  function LocatedDetails(location: string): string
  {
    "their location as: " + location + "."
  }

  /** The `{{#if location}} … {{else}} … {{/if}}` block. */
  function LocationBlock(x: FlowInput, w: Wording): seq<string>
  {
    if LocationTruthy(x.location) then [LocatedLine(x.location.value), "  ", w.geolocationAdvice]
    else [w.genericAdvice]
  }

  /** The closing lines; the template ends with a newline, hence the final empty line. */
  function After(w: Wording): seq<string>
  {
    ["", w.closing, ""]
  }

  function PromptLinesWith(x: FlowInput, w: Wording): seq<string>
  {
    Before(x, w) + HistoryBlock(x) + [""] + LocationBlock(x, w) + After(w)
  }

  /** The lines of the rendered prompt. */
  function PromptLines(x: FlowInput): seq<string>
  {
    PromptLinesWith(x, TemplateWording())
  }

  function RenderPrompt(x: FlowInput): string
  {
    JoinLines(PromptLines(x))
  }

  /** `getMaintenanceRecommendations`, which returns whatever its flow returns: missing
      recommendations become the flow's own error, a failed call keeps its error, and
      recommendations are returned unchanged. */
  function GetMaintenanceRecommendations(x: FlowInput, generate: string -> ModelCall<RecommendationsOutput>)
    : (r: Result<RecommendationsOutput, string>)
    ensures r.Success? <==> generate(RenderPrompt(x)).Replied? && generate(RenderPrompt(x)).output.Some?
    ensures r.Success? ==> r.value == generate(RenderPrompt(x)).output.value
    ensures generate(RenderPrompt(x)) == Replied(None) ==> r == Failure(NoRecommendations)
  {
    match generate(RenderPrompt(x))
    case CallFailed(reason) => Failure(reason)
    case Replied(output) => if output.Some? then Success(output.value) else Failure(NoRecommendations)
  }

  // ---------------------------------------------------------------------------------------------
  // The template's wording fits the markers

  lemma PurposeUnmarked()
    ensures Unmarked(Purpose())
  {
    assert Purpose()[2] == 'u';
    PrefixMismatch(Purpose(), "", TaskPrefix, 2);
    PrefixMismatch(Purpose(), "", HistoryHeader, 2);
    PrefixMismatch(Purpose(), "", LocatedPrefix, 2);
    PrefixMismatch(Purpose(), "", GenericPrefix, 2);
  }

  lemma RequestUnmarked()
    ensures Unmarked(Request())
  {
    assert Request()[2] == 'G';
    PrefixMismatch(Request(), "", TaskPrefix, 2);
    PrefixMismatch(Request(), "", HistoryHeader, 2);
    PrefixMismatch(Request(), "", LocatedPrefix, 2);
    PrefixMismatch(Request(), "", GenericPrefix, 2);
  }

  lemma GeolocationAdviceUnmarked()
    ensures Unmarked(GeolocationAdvice())
  {
    assert GeolocationAdvice()[2] == 'W';
    PrefixMismatch(GeolocationAdvice(), "", TaskPrefix, 2);
    PrefixMismatch(GeolocationAdvice(), "", HistoryHeader, 2);
    PrefixMismatch(GeolocationAdvice(), "", LocatedPrefix, 2);
    PrefixMismatch(GeolocationAdvice(), "", GenericPrefix, 2);
  }

  lemma ClosingUnmarked()
    ensures Unmarked(Closing())
  {
    assert Closing()[2] == 'Y';
    PrefixMismatch(Closing(), "", TaskPrefix, 2);
    PrefixMismatch(Closing(), "", HistoryHeader, 2);
    PrefixMismatch(Closing(), "", LocatedPrefix, 2);
    PrefixMismatch(Closing(), "", GenericPrefix, 2);
  }

  lemma GenericAdviceMarked()
    ensures StartsWith(GenericAdvice(), GenericPrefix) && !StartsWith(GenericAdvice(), TaskPrefix)
            && !StartsWith(GenericAdvice(), HistoryHeader) && !StartsWith(GenericAdvice(), LocatedPrefix)
  {
    var rest := "location was " + "provided. When " + "recommending service " +
      "providers, please " + "suggest generic " + "options like \"a local " + "auto shop,\" or \"a " +
      "certified appliance " + "repair service\".";
    assert GenericAdvice() == GenericPrefix + rest;
    StartsWithConcat(GenericPrefix, rest);
    assert GenericAdvice()[2] == 'N';
    PrefixMismatch(GenericAdvice(), "", TaskPrefix, 2);
    PrefixMismatch(GenericAdvice(), "", HistoryHeader, 2);
    PrefixMismatch(GenericAdvice(), "", LocatedPrefix, 2);
  }

  lemma TemplateWordingFits()
    ensures WordingFits(TemplateWording())
  {
    PurposeUnmarked();
    RequestUnmarked();
    GeolocationAdviceUnmarked();
    ClosingUnmarked();
    GenericAdviceMarked();
  }

  // ---------------------------------------------------------------------------------------------
  // Properties of the prompt over any fitting wording

  /** Neither the lines before the history nor the lines after the location carry a marker. */
  lemma FixedBlocksUnmarked(x: FlowInput, w: Wording, p: string)
    requires WordingFits(w)
    requires IsMarker(p)
    ensures WithPrefix(Before(x, w), p) == [] && WithPrefix([""], p) == [] && WithPrefix(After(w), p) == []
  {
    var machine := MachineLines(x);
    if p == HistoryHeader {
      WithPrefixNoneAt(machine, p, 4);
    } else {
      WithPrefixNoneAt(machine, p, 2);
    }
    WithPrefixNone([w.purpose, "", w.request, ""], p);
    WithPrefixNone([""], p);
    WithPrefixNone(After(w), p);
    WithPrefixConcat([w.purpose, "", w.request, ""] + machine, [""], p);
    WithPrefixConcat([w.purpose, "", w.request, ""], machine, p);
  }

  /** A marker is one of the four line openings the properties look for. */
  predicate IsMarker(p: string)
  {
    p == TaskPrefix || p == HistoryHeader || p == LocatedPrefix || p == GenericPrefix
  }

  /** Task lines carry the task marker and no other. */
  lemma TaskLinesMarked(hs: seq<HistoryItem>, p: string)
    requires IsMarker(p)
    ensures WithPrefix(TaskLines(hs), p) == if p == TaskPrefix then TaskLines(hs) else []
  {
    if p == TaskPrefix {
      TaskLinesStartWithMarker(hs);
    } else {
      TaskLinesLackOtherMarkers(hs, p);
    }
  }

  lemma TaskLinesStartWithMarker(hs: seq<HistoryItem>)
    ensures WithPrefix(TaskLines(hs), TaskPrefix) == TaskLines(hs)
  {
    var tasks := TaskLines(hs);
    forall k | 0 <= k < |tasks| ensures StartsWith(tasks[k], TaskPrefix) {
      StartsWithConcat(TaskPrefix, TaskDetails(hs[k]));
    }
    WithPrefixAll(tasks, TaskPrefix);
  }

  lemma TaskLinesLackOtherMarkers(hs: seq<HistoryItem>, p: string)
    requires |p| > 2 && p[2] != '-'
    ensures WithPrefix(TaskLines(hs), p) == []
  {
    var tasks := TaskLines(hs);
    forall k | 0 <= k < |tasks| ensures !StartsWith(tasks[k], p) {
      PrefixMismatch(TaskPrefix, TaskDetails(hs[k]), p, 2);
    }
    WithPrefixNone(tasks, p);
  }

  /** The history block carries the header marker on its first line and the task marker on the rest. */
  lemma HistoryBlockMarked(x: FlowInput, p: string)
    requires IsMarker(p)
    ensures WithPrefix(HistoryBlock(x), p)
            == if !HistoryTruthy(x.maintenanceHistory) then []
               else if p == HistoryHeader then [HistoryHeader]
               else if p == TaskPrefix then TaskLines(x.maintenanceHistory.value)
               else []
  {
    if HistoryTruthy(x.maintenanceHistory) {
      TaskLinesMarked(x.maintenanceHistory.value, p);
      HeaderMarked(p);
      WithPrefixConcat([HistoryHeader], TaskLines(x.maintenanceHistory.value), p);
    }
  }

  /** The header line carries the header marker and no other. */
  lemma HeaderMarked(p: string)
    requires IsMarker(p)
    ensures WithPrefix([HistoryHeader], p) == if p == HistoryHeader then [HistoryHeader] else []
  {
    WithPrefixOne(HistoryHeader, p);
    assert HistoryHeader + "" == HistoryHeader;
    if p == HistoryHeader {
      StartsWithConcat(p, "");
    } else {
      PrefixMismatch(HistoryHeader, "", p, 2);
    }
  }

  /** The location block carries the location marker when a location is given, and the generic
      marker otherwise. */
  lemma LocationBlockMarked(x: FlowInput, w: Wording, p: string)
    requires WordingFits(w) && IsMarker(p)
    ensures WithPrefix(LocationBlock(x, w), p)
            == if LocationTruthy(x.location) then (if p == LocatedPrefix then [LocatedLine(x.location.value)] else [])
               else if p == GenericPrefix then [w.genericAdvice] else []
  {
    if LocationTruthy(x.location) {
      var line := LocatedLine(x.location.value);
      if p == LocatedPrefix {
        StartsWithConcat(p, LocatedDetails(x.location.value));
      } else {
        PrefixMismatch(LocatedPrefix, LocatedDetails(x.location.value), p, 2);
      }
      WithPrefixNone(["  ", w.geolocationAdvice], p);
      WithPrefixConcat([line], ["  ", w.geolocationAdvice], p);
      WithPrefixOne(line, p);
    } else {
      WithPrefixOne(w.genericAdvice, p);
    }
  }

  lemma TaskLinesInOrderWith(x: FlowInput, w: Wording)
    requires WordingFits(w)
    ensures WithPrefix(PromptLinesWith(x, w), TaskPrefix)
            == TaskLines(if x.maintenanceHistory.Some? then x.maintenanceHistory.value else [])
  {
    var p := TaskPrefix;
    FixedBlocksUnmarked(x, w, p);
    HistoryBlockMarked(x, p);
    LocationBlockMarked(x, w, p);
    var hs := if HistoryTruthy(x.maintenanceHistory) then TaskLines(x.maintenanceHistory.value) else [];
    WithPrefixOfFive(Before(x, w), HistoryBlock(x), [""], LocationBlock(x, w), After(w), p, hs, []);
    assert hs + [] == hs;
  }

  lemma HistoryHeaderIffTruthyWith(x: FlowInput, w: Wording)
    requires WordingFits(w)
    ensures WithPrefix(PromptLinesWith(x, w), HistoryHeader)
            == if HistoryTruthy(x.maintenanceHistory) then [HistoryHeader] else []
  {
    var p := HistoryHeader;
    FixedBlocksUnmarked(x, w, p);
    HistoryBlockMarked(x, p);
    LocationBlockMarked(x, w, p);
    var hs := if HistoryTruthy(x.maintenanceHistory) then [HistoryHeader] else [];
    WithPrefixOfFive(Before(x, w), HistoryBlock(x), [""], LocationBlock(x, w), After(w), p, hs, []);
    assert hs + [] == hs;
  }

  lemma LocatedClauseWith(x: FlowInput, w: Wording)
    requires WordingFits(w)
    ensures WithPrefix(PromptLinesWith(x, w), LocatedPrefix)
            == if LocationTruthy(x.location) then [LocatedLine(x.location.value)] else []
  {
    var p := LocatedPrefix;
    FixedBlocksUnmarked(x, w, p);
    HistoryBlockMarked(x, p);
    LocationBlockMarked(x, w, p);
    var ls := if LocationTruthy(x.location) then [LocatedLine(x.location.value)] else [];
    WithPrefixOfFive(Before(x, w), HistoryBlock(x), [""], LocationBlock(x, w), After(w), p, [], ls);
    assert [] + ls == ls;
  }

  lemma GenericClauseWith(x: FlowInput, w: Wording)
    requires WordingFits(w)
    ensures WithPrefix(PromptLinesWith(x, w), GenericPrefix)
            == if LocationTruthy(x.location) then [] else [w.genericAdvice]
  {
    var p := GenericPrefix;
    FixedBlocksUnmarked(x, w, p);
    HistoryBlockMarked(x, p);
    LocationBlockMarked(x, w, p);
    var ls := if LocationTruthy(x.location) then [] else [w.genericAdvice];
    WithPrefixOfFive(Before(x, w), HistoryBlock(x), [""], LocationBlock(x, w), After(w), p, [], ls);
    assert [] + ls == ls;
  }

  // ---------------------------------------------------------------------------------------------
  // Properties of the rendered prompt

  /** The machine facts sit at the same place in every prompt, whatever the history and location. */
  lemma MachineFactsPosition(x: FlowInput)
    ensures PromptLines(x)[4..10] == MachineLines(x)
  {
    var w := TemplateWording();
    var b := Before(x, w);
    assert b == [w.purpose, "", w.request, ""] + MachineLines(x) + [""];
    assert b[4..10] == MachineLines(x);
    assert PromptLines(x) == b + (HistoryBlock(x) + [""] + LocationBlock(x, w) + After(w));
  }

  /** The task lines of the prompt are one line per history entry, in the history's order; an
      absent or empty history gives none. */
  lemma TaskLinesInOrder(x: FlowInput)
    ensures WithPrefix(PromptLines(x), TaskPrefix)
            == TaskLines(if x.maintenanceHistory.Some? then x.maintenanceHistory.value else [])
  {
    TemplateWordingFits();
    TaskLinesInOrderWith(x, TemplateWording());
  }

  /** The "Maintenance History:" header appears exactly when the history is present and non-empty. */
  lemma HistoryHeaderIffTruthy(x: FlowInput)
    ensures WithPrefix(PromptLines(x), HistoryHeader)
            == if HistoryTruthy(x.maintenanceHistory) then [HistoryHeader] else []
  {
    TemplateWordingFits();
    HistoryHeaderIffTruthyWith(x, TemplateWording());
  }

  /** Exactly one of the two location clauses is rendered: the one naming the location when it is
      present and non-empty, the generic one otherwise (an empty location included). */
  lemma LocationClauseIffTruthy(x: FlowInput)
    ensures WithPrefix(PromptLines(x), LocatedPrefix)
            == if LocationTruthy(x.location) then [LocatedLine(x.location.value)] else []
    ensures WithPrefix(PromptLines(x), GenericPrefix)
            == if LocationTruthy(x.location) then [] else [GenericAdvice()]
  {
    TemplateWordingFits();
    LocatedClauseWith(x, TemplateWording());
    GenericClauseWith(x, TemplateWording());
  }
}
