/** The six shape contracts of the AI layer (src/ai/schemas.ts) and what checking a candidate value
    against each of them yields.

    A schema check takes a JSON-like value and either rejects it or returns the typed record it
    describes. Required fields must be present with the declared type, optional ones may be absent,
    enumerations accept their literals exactly, and keys the schema does not name are dropped. */
module Schemas {
  import opened Wrappers
  import opened JsonValues
  import opened Types

  /** One maintenance-history entry as the AI layer sees it. Dates are free text; costs are any
      (integer) number, negative ones included. */
  datatype HistoryItem = HistoryItem(task: string, date: string, cost: int)

  /** The predictive-maintenance request. `H` is how the history is carried: the schema check
      yields `seq<HistoryItem>`, the server action hands the flow its JSON text (`string`). */
  datatype PredictiveInput<H> = PredictiveInput(
    category: string,
    brand: string,
    model: string,
    lastMaintenance: string,
    purchaseDate: string,
    usageFrequency: string,
    warrantyExpiry: string,
    maintenanceHistory: Option<H>)

  datatype PredictiveOutput = PredictiveOutput(
    taskName: string,
    nextMaintenanceDate: string,
    estimatedCost: int,
    urgencyLevel: Urgency)

  /** The recommendations request; `H` as for `PredictiveInput`. */
  datatype RecommendationsInput<H> = RecommendationsInput(
    category: string,
    brand: string,
    model: string,
    usageFrequency: string,
    lastMaintenanceDate: string,
    purchaseDate: string,
    maintenanceHistory: Option<H>,
    location: Option<string>)

  datatype RecommendationsOutput = RecommendationsOutput(
    costSavingTips: string,
    recommendedServiceProviders: string,
    estimatedRemainingLife: string,
    criticalAttentionNeeded: string)

  /** Who spoke a chat turn. */
  datatype Role = User | Model

  datatype ChatTurn = ChatTurn(role: Role, content: string)

  datatype ChatInput = ChatInput(message: string, history: Option<seq<ChatTurn>>)

  datatype ChatOutput = ChatOutput(response: string)

  // ---------------------------------------------------------------------------------------------
  // Checking candidates

  /** `z.array(element)`: every item must pass; the results keep the items' order. */
  function ParseArray<T>(items: seq<Json>, parse: Json -> Option<T>): (r: Option<seq<T>>)
    ensures r.Some? <==> forall i :: 0 <= i < |items| ==> parse(items[i]).Some?
    ensures r.Some? ==> |r.value| == |items|
    ensures r.Some? ==> forall i :: 0 <= i < |items| ==> parse(items[i]) == Some(r.value[i])
  {
    if items == [] then Some([])
    else
      var head := parse(items[0]);
      var tail := ParseArray(items[1..], parse);
      assert forall i :: 0 < i < |items| ==> items[i] == items[1..][i - 1];
      if head.Some? && tail.Some? then Some([head.value] + tail.value) else None
  }

  /** `z.array(element).optional()` under `key`: `Some(None)` when the key is absent, `None` when
      the value present is not an array of valid elements. */
  function OptionalArrayAt<T>(fields: map<string, Json>, key: string, parse: Json -> Option<T>)
    : (r: Option<Option<seq<T>>>)
    ensures r == Some(None) <==> key !in fields
    ensures key in fields && !fields[key].JArr? ==> r.None?
    ensures r.Some? && r.value.Some? ==>
              && key in fields && fields[key].JArr? && |r.value.value| == |fields[key].items|
              && forall i :: 0 <= i < |fields[key].items| ==> parse(fields[key].items[i]) == Some(r.value.value[i])
  {
    if key !in fields then Some(None)
    else if !fields[key].JArr? then None
    else
      var items := ParseArray(fields[key].items, parse);
      if items.Some? then Some(Some(items.value)) else None
  }

  /** `key` is present in `fields` and holds the string `value`. */
  predicate HasString(fields: map<string, Json>, key: string, value: string)
  {
    key in fields && fields[key] == JStr(value)
  }

  /** One history entry: `task` and `date` strings and a numeric `cost`, read from their own keys. */
  function ParseHistoryItem(j: Json): (r: Option<HistoryItem>)
    ensures r.Some? <==> j.JObj? && StringAt(j.fields, "task").Some? && StringAt(j.fields, "date").Some?
                         && NumberAt(j.fields, "cost").Some?
    ensures r.Some? ==> HasString(j.fields, "task", r.value.task) && HasString(j.fields, "date", r.value.date)
                        && "cost" in j.fields && j.fields["cost"] == JNum(r.value.cost)
  {
    if !j.JObj? then None
    else
      var task := StringAt(j.fields, "task");
      var date := StringAt(j.fields, "date");
      var cost := NumberAt(j.fields, "cost");
      if task.Some? && date.Some? && cost.Some? then Some(HistoryItem(task.value, date.value, cost.value))
      else None
  }

  /** PredictiveMaintenanceInputSchema. An accepted request is an object whose seven required
      fields are the strings under the keys of the same names, and whose history is absent exactly
      when the key is, and otherwise the array under it, entry by entry. */
  function ParsePredictiveInput(j: Json): (r: Option<PredictiveInput<seq<HistoryItem>>>)
    ensures r.Some? ==> j.JObj?
    ensures r.Some? ==>
              && HasString(j.fields, "category", r.value.category) && HasString(j.fields, "brand", r.value.brand)
              && HasString(j.fields, "model", r.value.model)
              && HasString(j.fields, "lastMaintenance", r.value.lastMaintenance)
              && HasString(j.fields, "purchaseDate", r.value.purchaseDate)
              && HasString(j.fields, "usageFrequency", r.value.usageFrequency)
              && HasString(j.fields, "warrantyExpiry", r.value.warrantyExpiry)
    ensures r.Some? ==> (r.value.maintenanceHistory.None? <==> "maintenanceHistory" !in j.fields)
    ensures r.Some? && r.value.maintenanceHistory.Some? ==>
              && j.fields["maintenanceHistory"].JArr?
              && (var items := j.fields["maintenanceHistory"].items;
                  && |r.value.maintenanceHistory.value| == |items|
                  && forall i :: 0 <= i < |items| ==> ParseHistoryItem(items[i]) == Some(r.value.maintenanceHistory.value[i]))
  {
    if !j.JObj? then None
    else
      var f := j.fields;
      var category := StringAt(f, "category");
      var brand := StringAt(f, "brand");
      var model := StringAt(f, "model");
      var lastMaintenance := StringAt(f, "lastMaintenance");
      var purchaseDate := StringAt(f, "purchaseDate");
      var usageFrequency := StringAt(f, "usageFrequency");
      var warrantyExpiry := StringAt(f, "warrantyExpiry");
      var history := OptionalArrayAt(f, "maintenanceHistory", ParseHistoryItem);
      if category.Some? && brand.Some? && model.Some? && lastMaintenance.Some? && purchaseDate.Some?
         && usageFrequency.Some? && warrantyExpiry.Some? && history.Some?
      then Some(PredictiveInput(category.value, brand.value, model.value, lastMaintenance.value,
                                purchaseDate.value, usageFrequency.value, warrantyExpiry.value, history.value))
      else None
  }

  /** PredictiveMaintenanceOutputSchema: `urgencyLevel` must be one of the three literals. */
  function ParsePredictiveOutput(j: Json): (r: Option<PredictiveOutput>)
    ensures r.Some? ==> j.JObj?
    ensures r.Some? ==>
              && HasString(j.fields, "taskName", r.value.taskName)
              && HasString(j.fields, "nextMaintenanceDate", r.value.nextMaintenanceDate)
              && "estimatedCost" in j.fields && j.fields["estimatedCost"] == JNum(r.value.estimatedCost)
              && HasString(j.fields, "urgencyLevel", UrgencyName(r.value.urgencyLevel))
  {
    if !j.JObj? then None
    else
      var f := j.fields;
      var taskName := StringAt(f, "taskName");
      var nextDate := StringAt(f, "nextMaintenanceDate");
      var cost := NumberAt(f, "estimatedCost");
      var urgency := StringAt(f, "urgencyLevel");
      if taskName.Some? && nextDate.Some? && cost.Some? && urgency.Some? && ParseUrgency(urgency.value).Some?
      then Some(PredictiveOutput(taskName.value, nextDate.value, cost.value, ParseUrgency(urgency.value).value))
      else None
  }

  /** MaintenanceRecommendationsInputSchema: `category` is required; history and location are
      optional. An accepted request reads each field from the key of its name. */
  function ParseRecommendationsInput(j: Json): (r: Option<RecommendationsInput<seq<HistoryItem>>>)
    ensures r.Some? ==> j.JObj?
    ensures r.Some? ==>
              && HasString(j.fields, "category", r.value.category) && HasString(j.fields, "brand", r.value.brand)
              && HasString(j.fields, "model", r.value.model)
              && HasString(j.fields, "usageFrequency", r.value.usageFrequency)
              && HasString(j.fields, "lastMaintenanceDate", r.value.lastMaintenanceDate)
              && HasString(j.fields, "purchaseDate", r.value.purchaseDate)
    ensures r.Some? ==> (r.value.maintenanceHistory.None? <==> "maintenanceHistory" !in j.fields)
    ensures r.Some? && r.value.maintenanceHistory.Some? ==>
              && j.fields["maintenanceHistory"].JArr?
              && (var items := j.fields["maintenanceHistory"].items;
                  && |r.value.maintenanceHistory.value| == |items|
                  && forall i :: 0 <= i < |items| ==> ParseHistoryItem(items[i]) == Some(r.value.maintenanceHistory.value[i]))
    ensures r.Some? ==> (r.value.location.None? <==> "location" !in j.fields)
    ensures r.Some? && r.value.location.Some? ==> HasString(j.fields, "location", r.value.location.value)
  {
    if !j.JObj? then None
    else
      var f := j.fields;
      var category := StringAt(f, "category");
      var brand := StringAt(f, "brand");
      var model := StringAt(f, "model");
      var usageFrequency := StringAt(f, "usageFrequency");
      var lastDate := StringAt(f, "lastMaintenanceDate");
      var purchaseDate := StringAt(f, "purchaseDate");
      var history := OptionalArrayAt(f, "maintenanceHistory", ParseHistoryItem);
      var location := OptionalStringAt(f, "location");
      if category.Some? && brand.Some? && model.Some? && usageFrequency.Some? && lastDate.Some?
         && purchaseDate.Some? && history.Some? && location.Some?
      then Some(RecommendationsInput(category.value, brand.value, model.value, usageFrequency.value,
                                     lastDate.value, purchaseDate.value, history.value, location.value))
      else None
  }

  /** MaintenanceRecommendationsOutputSchema: four required strings. */
  function ParseRecommendationsOutput(j: Json): (r: Option<RecommendationsOutput>)
    ensures r.Some? <==> j.JObj? && StringAt(j.fields, "costSavingTips").Some?
                         && StringAt(j.fields, "recommendedServiceProviders").Some?
                         && StringAt(j.fields, "estimatedRemainingLife").Some?
                         && StringAt(j.fields, "criticalAttentionNeeded").Some?
    ensures r.Some? ==>
              && HasString(j.fields, "costSavingTips", r.value.costSavingTips)
              && HasString(j.fields, "recommendedServiceProviders", r.value.recommendedServiceProviders)
              && HasString(j.fields, "estimatedRemainingLife", r.value.estimatedRemainingLife)
              && HasString(j.fields, "criticalAttentionNeeded", r.value.criticalAttentionNeeded)
  {
    if !j.JObj? then None
    else
      var f := j.fields;
      var tips := StringAt(f, "costSavingTips");
      var providers := StringAt(f, "recommendedServiceProviders");
      var life := StringAt(f, "estimatedRemainingLife");
      var critical := StringAt(f, "criticalAttentionNeeded");
      if tips.Some? && providers.Some? && life.Some? && critical.Some?
      then Some(RecommendationsOutput(tips.value, providers.value, life.value, critical.value))
      else None
  }

  function ParseRole(s: string): Option<Role>
  {
    if s == "user" then Some(User) else if s == "model" then Some(Model) else None
  }

  function RoleName(r: Role): string
  {
    match r
    case User => "user"
    case Model => "model"
  }

  /** ChatHistorySchema: a turn is accepted exactly when its role is "user" or "model" and its
      content is a string. */
  function ParseChatTurn(j: Json): (r: Option<ChatTurn>)
    ensures r.Some? <==> j.JObj? && StringAt(j.fields, "content").Some?
                         && (HasString(j.fields, "role", "user") || HasString(j.fields, "role", "model"))
    ensures r.Some? ==> HasString(j.fields, "role", RoleName(r.value.role))
                        && HasString(j.fields, "content", r.value.content)
  {
    if !j.JObj? then None
    else
      var role := StringAt(j.fields, "role");
      var content := StringAt(j.fields, "content");
      if role.Some? && ParseRole(role.value).Some? && content.Some?
      then Some(ChatTurn(ParseRole(role.value).value, content.value))
      else None
  }

  /** ChatInputSchema: `message` is required, `history` optional. */
  function ParseChatInput(j: Json): (r: Option<ChatInput>)
    ensures r.Some? ==> j.JObj? && HasString(j.fields, "message", r.value.message)
    ensures r.Some? ==> (r.value.history.None? <==> "history" !in j.fields)
    ensures r.Some? && r.value.history.Some? ==>
              && j.fields["history"].JArr?
              && (var items := j.fields["history"].items;
                  && |r.value.history.value| == |items|
                  && forall i :: 0 <= i < |items| ==> ParseChatTurn(items[i]) == Some(r.value.history.value[i]))
  {
    if !j.JObj? then None
    else
      var message := StringAt(j.fields, "message");
      var history := OptionalArrayAt(j.fields, "history", ParseChatTurn);
      if message.Some? && history.Some? then Some(ChatInput(message.value, history.value)) else None
  }

  /** ChatOutputSchema. */
  function ParseChatOutput(j: Json): (r: Option<ChatOutput>)
    ensures r.Some? <==> j.JObj? && StringAt(j.fields, "response").Some?
    ensures r.Some? ==> HasString(j.fields, "response", r.value.response)
  {
    if !j.JObj? then None
    else
      var response := StringAt(j.fields, "response");
      if response.Some? then Some(ChatOutput(response.value)) else None
  }

  // ---------------------------------------------------------------------------------------------
  // Writing records as JSON values (the partners of the checks)

  function HistoryItemJson(h: HistoryItem): Json
  {
    JObj(map["task" := JStr(h.task), "date" := JStr(h.date), "cost" := JNum(h.cost)])
  }

  function ArrayJson<T>(xs: seq<T>, write: T -> Json): (r: Json)
    ensures r.JArr? && |r.items| == |xs|
    ensures forall i :: 0 <= i < |xs| ==> r.items[i] == write(xs[i])
  {
    JArr(seq(|xs|, i requires 0 <= i < |xs| => write(xs[i])))
  }

  /** `fields` with `key` set when the optional `value` is present, and unchanged when it is absent. */
  function WithOptional<T>(fields: map<string, Json>, key: string, value: Option<T>, write: T -> Json)
    : map<string, Json>
  {
    if value.Some? then fields[key := write(value.value)] else fields
  }

  function HistoryJson(hs: seq<HistoryItem>): Json
  {
    ArrayJson(hs, HistoryItemJson)
  }

  function PredictiveRequiredFields(x: PredictiveInput<seq<HistoryItem>>): map<string, Json>
  {
    map["category" := JStr(x.category), "brand" := JStr(x.brand), "model" := JStr(x.model),
        "lastMaintenance" := JStr(x.lastMaintenance), "purchaseDate" := JStr(x.purchaseDate),
        "usageFrequency" := JStr(x.usageFrequency), "warrantyExpiry" := JStr(x.warrantyExpiry)]
  }

  function PredictiveInputJson(x: PredictiveInput<seq<HistoryItem>>): Json
  {
    JObj(WithOptional(PredictiveRequiredFields(x), "maintenanceHistory", x.maintenanceHistory, HistoryJson))
  }

  function PredictiveOutputJson(o: PredictiveOutput): Json
  {
    JObj(map["taskName" := JStr(o.taskName), "nextMaintenanceDate" := JStr(o.nextMaintenanceDate),
             "estimatedCost" := JNum(o.estimatedCost), "urgencyLevel" := JStr(UrgencyName(o.urgencyLevel))])
  }

  function Str(s: string): Json
  {
    JStr(s)
  }

  function RecommendationsRequiredFields(x: RecommendationsInput<seq<HistoryItem>>): map<string, Json>
  {
    map["category" := JStr(x.category), "brand" := JStr(x.brand), "model" := JStr(x.model),
        "usageFrequency" := JStr(x.usageFrequency), "lastMaintenanceDate" := JStr(x.lastMaintenanceDate),
        "purchaseDate" := JStr(x.purchaseDate)]
  }

  function RecommendationsInputJson(x: RecommendationsInput<seq<HistoryItem>>): Json
  {
    JObj(WithOptional(WithOptional(RecommendationsRequiredFields(x), "maintenanceHistory", x.maintenanceHistory,
                                   HistoryJson),
                      "location", x.location, Str))
  }

  function RecommendationsOutputJson(o: RecommendationsOutput): Json
  {
    JObj(map["costSavingTips" := JStr(o.costSavingTips),
             "recommendedServiceProviders" := JStr(o.recommendedServiceProviders),
             "estimatedRemainingLife" := JStr(o.estimatedRemainingLife),
             "criticalAttentionNeeded" := JStr(o.criticalAttentionNeeded)])
  }

  function ChatTurnJson(t: ChatTurn): Json
  {
    JObj(map["role" := JStr(RoleName(t.role)), "content" := JStr(t.content)])
  }

  function ChatHistoryJson(ts: seq<ChatTurn>): Json
  {
    ArrayJson(ts, ChatTurnJson)
  }

  function ChatInputJson(x: ChatInput): Json
  {
    JObj(WithOptional(map["message" := JStr(x.message)], "history", x.history, ChatHistoryJson))
  }

  function ChatOutputJson(o: ChatOutput): Json
  {
    JObj(map["response" := JStr(o.response)])
  }

  // ---------------------------------------------------------------------------------------------
  // Properties

  /** Every history list written as JSON is accepted back unchanged, whatever its dates' text and
      whatever the sign of its costs. */
  lemma HistoryRoundTrip(hs: seq<HistoryItem>)
    ensures ParseArray(HistoryJson(hs).items, ParseHistoryItem) == Some(hs)
  {
    var items := HistoryJson(hs).items;
    forall i | 0 <= i < |items| ensures ParseHistoryItem(items[i]) == Some(hs[i]) {
      assert items[i] == HistoryItemJson(hs[i]);
    }
    var r := ParseArray(items, ParseHistoryItem);
    assert r.Some? && |r.value| == |hs|;
    assert forall i :: 0 <= i < |hs| ==> r.value[i] == hs[i];
    assert r.value == hs;
  }

  /** The predictive check accepts every well-typed request and returns exactly its fields:
      dates are not checked against YYYY-MM-DD, costs may be negative, the history may be absent. */
  lemma PredictiveInputRoundTrip(x: PredictiveInput<seq<HistoryItem>>)
    ensures ParsePredictiveInput(PredictiveInputJson(x)) == Some(x)
  {
    var f := PredictiveInputJson(x).fields;
    var required := PredictiveRequiredFields(x);
    PredictiveRequiredFieldsWritten(x);
    assert OptionalArrayAt(f, "maintenanceHistory", ParseHistoryItem) == Some(x.maintenanceHistory) by {
      if x.maintenanceHistory.Some? {
        HistoryRoundTrip(x.maintenanceHistory.value);
      }
    }
    assert forall k :: k in required ==> k in f && f[k] == required[k];
  }

  lemma PredictiveRequiredFieldsWritten(x: PredictiveInput<seq<HistoryItem>>)
    ensures var f := PredictiveRequiredFields(x);
            && "maintenanceHistory" !in f
            && StringAt(f, "category") == Some(x.category) && StringAt(f, "brand") == Some(x.brand)
            && StringAt(f, "model") == Some(x.model) && StringAt(f, "lastMaintenance") == Some(x.lastMaintenance)
            && StringAt(f, "purchaseDate") == Some(x.purchaseDate)
            && StringAt(f, "usageFrequency") == Some(x.usageFrequency)
            && StringAt(f, "warrantyExpiry") == Some(x.warrantyExpiry)
  {
  }

  /** A predictive request lacking any one of its seven required string fields is rejected. */
  lemma PredictiveMissingFieldRejected(f: map<string, Json>, key: string)
    requires key in {"category", "brand", "model", "lastMaintenance", "purchaseDate", "usageFrequency",
                     "warrantyExpiry"}
    ensures ParsePredictiveInput(JObj(f - {key})) == None
  {
  }

  /** The history, when present, must be an array whose every entry has string `task` and `date`
      and numeric `cost`; one bad entry rejects the whole request. */
  lemma PredictiveHistoryEntriesChecked(f: map<string, Json>)
    requires "maintenanceHistory" in f
    ensures ParsePredictiveInput(JObj(f)).Some? ==>
              f["maintenanceHistory"].JArr?
              && forall i :: 0 <= i < |f["maintenanceHistory"].items| ==>
                   var e := f["maintenanceHistory"].items[i];
                   e.JObj? && StringAt(e.fields, "task").Some? && StringAt(e.fields, "date").Some?
                   && NumberAt(e.fields, "cost").Some?
  {
    var r := ParsePredictiveInput(JObj(f));
    if r.Some? {
      var items := f["maintenanceHistory"].items;
      assert ParseArray(items, ParseHistoryItem).Some?;
      forall i | 0 <= i < |items|
        ensures items[i].JObj? && StringAt(items[i].fields, "task").Some?
                && StringAt(items[i].fields, "date").Some? && NumberAt(items[i].fields, "cost").Some?
      {
        assert ParseHistoryItem(items[i]).Some?;
      }
    }
  }

  /** A predictive output is accepted exactly when its urgency text is one of the three literals
      (and its other fields are well typed); anything else, "high" or "Urgent" say, is rejected. */
  lemma PredictiveOutputUrgencyChecked(taskName: string, date: string, cost: int, urgency: string)
    ensures var j := JObj(map["taskName" := JStr(taskName), "nextMaintenanceDate" := JStr(date),
                              "estimatedCost" := JNum(cost), "urgencyLevel" := JStr(urgency)]);
            ParsePredictiveOutput(j).Some? <==> urgency == "Low" || urgency == "Medium" || urgency == "High"
  {
  }

  lemma PredictiveOutputRoundTrip(o: PredictiveOutput)
    ensures ParsePredictiveOutput(PredictiveOutputJson(o)) == Some(o)
  {
    UrgencyRoundTrip(o.urgencyLevel);
  }

  /** The recommendations check accepts every well-typed request, with or without history and
      location, and returns exactly its fields. */
  lemma RecommendationsInputRoundTrip(x: RecommendationsInput<seq<HistoryItem>>)
    ensures ParseRecommendationsInput(RecommendationsInputJson(x)) == Some(x)
  {
    var f := RecommendationsInputJson(x).fields;
    var required := RecommendationsRequiredFields(x);
    RecommendationsRequiredFieldsWritten(x);
    assert OptionalArrayAt(f, "maintenanceHistory", ParseHistoryItem) == Some(x.maintenanceHistory) by {
      if x.maintenanceHistory.Some? {
        HistoryRoundTrip(x.maintenanceHistory.value);
      }
    }
    assert OptionalStringAt(f, "location") == Some(x.location);
    assert forall k :: k in required ==> k in f && f[k] == required[k];
  }

  lemma RecommendationsRequiredFieldsWritten(x: RecommendationsInput<seq<HistoryItem>>)
    ensures var f := RecommendationsRequiredFields(x);
            && "maintenanceHistory" !in f && "location" !in f
            && StringAt(f, "category") == Some(x.category) && StringAt(f, "brand") == Some(x.brand)
            && StringAt(f, "model") == Some(x.model) && StringAt(f, "usageFrequency") == Some(x.usageFrequency)
            && StringAt(f, "lastMaintenanceDate") == Some(x.lastMaintenanceDate)
            && StringAt(f, "purchaseDate") == Some(x.purchaseDate)
  {
  }

  /** A recommendations request without `category` is rejected, whatever else it carries. */
  lemma RecommendationsWithoutCategoryRejected(f: map<string, Json>)
    requires "category" !in f
    ensures ParseRecommendationsInput(JObj(f)) == None
  {
  }

  /** A recommendations request whose history is not an array (a string, say) is rejected. */
  lemma RecommendationsHistoryMustBeArray(f: map<string, Json>)
    requires "maintenanceHistory" in f && !f["maintenanceHistory"].JArr?
    ensures ParseRecommendationsInput(JObj(f)) == None
  {
  }

  /** Keys the schema does not name are dropped: adding them changes nothing. */
  lemma RecommendationsIgnoreUnknownKeys(f: map<string, Json>, extra: map<string, Json>)
    requires forall k :: k in extra ==> k !in {"category", "brand", "model", "usageFrequency",
                "lastMaintenanceDate", "purchaseDate", "maintenanceHistory", "location"}
    ensures ParseRecommendationsInput(JObj(f + extra)) == ParseRecommendationsInput(JObj(f))
  {
    var g := f + extra;
    assert forall k :: k in {"category", "brand", "model", "usageFrequency", "lastMaintenanceDate",
                             "purchaseDate", "maintenanceHistory", "location"} ==>
                       (k in g <==> k in f) && (k in f ==> g[k] == f[k]);
  }

  lemma RecommendationsOutputRoundTrip(o: RecommendationsOutput)
    ensures ParseRecommendationsOutput(RecommendationsOutputJson(o)) == Some(o)
  {
  }

  /** Every chat answer, the empty one included, survives encoding and parsing unchanged. */
  lemma ChatOutputRoundTrip(o: ChatOutput)
    ensures ParseChatOutput(ChatOutputJson(o)) == Some(o)
  {
  }

  /** The chat check accepts every message with or without history and returns it unchanged. */
  lemma ChatInputRoundTrip(x: ChatInput)
    ensures ParseChatInput(ChatInputJson(x)) == Some(x)
  {
    if x.history.Some? {
      var ts := x.history.value;
      var items := ChatHistoryJson(ts).items;
      forall i | 0 <= i < |items| ensures ParseChatTurn(items[i]) == Some(ts[i]) {
        assert items[i] == ChatTurnJson(ts[i]);
      }
      var r := ParseArray(items, ParseChatTurn);
      assert r.Some? && |r.value| == |ts|;
      assert forall i :: 0 <= i < |ts| ==> r.value[i] == ts[i];
      assert r.value == ts;
    }
  }

  /** A chat turn is accepted only with role exactly "user" or "model". */
  lemma ChatRoleChecked(role: string, content: string)
    ensures ParseChatTurn(JObj(map["role" := JStr(role), "content" := JStr(content)])).Some?
            <==> role == "user" || role == "model"
  {
  }

  /** One history turn with any other role ("assistant", "User", ...) makes the whole chat request
      invalid, whatever the message and the other turns. */
  lemma ChatRequestRoleChecked(f: map<string, Json>, k: nat, role: string, content: string)
    requires "history" in f && f["history"].JArr? && k < |f["history"].items|
    requires f["history"].items[k] == JObj(map["role" := JStr(role), "content" := JStr(content)])
    requires role != "user" && role != "model"
    ensures ParseChatInput(JObj(f)) == None
  {
    ChatRoleChecked(role, content);
  }
}
