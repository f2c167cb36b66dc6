/** The server actions (src/app/actions.ts): check the caller's value against the request schema,
    hand the flow the checked request (with the history turned into JSON text), and replace any
    failure by a fixed message. */
module Actions {
  import opened Wrappers
  import opened JsonValues
  import opened Text
  import opened Schemas
  import opened ModelCalls
  import PredictiveFlow
  import ChatFlow

  const InvalidPredictive := "Invalid input for predictive maintenance."
  const FailedPredictive := "Failed to get predictive maintenance data."
  const InvalidRecommendations := "Invalid input for AI recommendations."
  const FailedRecommendations := "Failed to get AI recommendations."
  const InvalidChat := "Invalid input for chat."
  const FailedChat := "Failed to get chat response."

  // ---------------------------------------------------------------------------------------------
  // JSON.stringify of a checked history

  /** The escaped body of a JSON string literal: quote, backslash and newline get a backslash. */
  function Escape(s: string): (r: string)
    ensures |r| >= |s|
    ensures SingleLine(r)
  {
    if s == [] then ""
    else
      (if s[0] == '"' then "\\\"" else if s[0] == '\\' then "\\\\" else if s[0] == '\n' then "\\n"
       else [s[0]]) + Escape(s[1..])
  }

  /** Reading an escaped body back: a backslash and the character after it stand for that
      character, or for a newline when it is `n`. */
  function Unescape(t: string): string
  {
    if t == [] then ""
    else if t[0] == '\\' && |t| >= 2 then [if t[1] == 'n' then '\n' else t[1]] + Unescape(t[2..])
    else [t[0]] + Unescape(t[1..])
  }

  /** Escaping loses nothing: every text, newlines and quotes included, reads back as itself. */
  lemma {:induction false} EscapeRoundTrip(s: string)
    ensures Unescape(Escape(s)) == s
  {
    if s != [] {
      var rest := Escape(s[1..]);
      EscapeRoundTrip(s[1..]);
      var c := s[0];
      var head := if c == '"' then "\\\"" else if c == '\\' then "\\\\" else if c == '\n' then "\\n" else [c];
      assert Escape(s) == head + rest;
      if |head| == 2 {
        assert (head + rest)[0] == '\\' && (head + rest)[2..] == rest;
      } else {
        assert (head + rest)[0] == c && (head + rest)[1..] == rest;
      }
      assert [c] + s[1..] == s;
    }
  }

  function Quote(s: string): string
  {
    "\"" + Escape(s) + "\""
  }

  /** One entry, with its keys in the schema's order (the order the schema check builds them in). */
  function HistoryItemText(h: HistoryItem): string
  {
    "{" + "\"task\":" + Quote(h.task) + ",\"date\":" + Quote(h.date) + ",\"cost\":" + IntToDecimal(h.cost) + "}"
  }

  /** `JSON.stringify(history)`: a bracketed, comma-separated list of the entries. Even the empty
      history is the non-empty text "[]". */
  function HistoryText(hs: seq<HistoryItem>): (r: string)
    ensures |r| >= 2 && r[0] == '[' && r[|r| - 1] == ']'
  {
    "[" + Join(seq(|hs|, i requires 0 <= i < |hs| => HistoryItemText(hs[i])), ",") + "]"
  }

  /** The history's JSON text is one line: every newline inside a task or date is escaped. */
  lemma HistoryTextSingleLine(hs: seq<HistoryItem>)
    ensures SingleLine(HistoryText(hs))
  {
    var items := seq(|hs|, i requires 0 <= i < |hs| => HistoryItemText(hs[i]));
    forall k | 0 <= k < |items| ensures '\n' !in items[k] {
      var h := hs[k];
      NatToDecimalDigits(if h.cost < 0 then -h.cost else h.cost);
      assert '\n' !in IntToDecimal(h.cost);
    }
    JoinAvoids(items, ",", '\n');
  }

  /** Only the empty history is written "[]". */
  lemma EmptyHistoryText(hs: seq<HistoryItem>)
    ensures HistoryText(hs) == "[]" <==> hs == []
  {
    var items := seq(|hs|, i requires 0 <= i < |hs| => HistoryItemText(hs[i]));
    if hs != [] {
      JoinStartsWithFirst(items, ",");
      assert items[0][0] == '{';
      assert HistoryText(hs)[1] == '{';
    }
  }

  /** A join of parts whose first part is non-empty starts with that part's first character. */
  lemma JoinStartsWithFirst(parts: seq<string>, sep: string)
    requires parts != [] && parts[0] != ""
    ensures |Join(parts, sep)| > 0 && Join(parts, sep)[0] == parts[0][0]
  {
  }

  // ---------------------------------------------------------------------------------------------
  // runPredictiveMaintenance

  /** What the action hands `predictMaintenance`: the checked request with its history, when there
      is one, replaced by the history's JSON text. */
  function PredictiveFlowRequest(v: PredictiveInput<seq<HistoryItem>>): (r: PredictiveInput<string>)
    ensures r.maintenanceHistory.Some? <==> v.maintenanceHistory.Some?
    ensures r.maintenanceHistory.Some? ==> r.maintenanceHistory.value == HistoryText(v.maintenanceHistory.value)
    ensures r.category == v.category && r.brand == v.brand && r.model == v.model
    ensures r.lastMaintenance == v.lastMaintenance && r.purchaseDate == v.purchaseDate
    ensures r.usageFrequency == v.usageFrequency && r.warrantyExpiry == v.warrantyExpiry
  {
    PredictiveInput(v.category, v.brand, v.model, v.lastMaintenance, v.purchaseDate, v.usageFrequency,
      v.warrantyExpiry,
      if v.maintenanceHistory.Some? then Some(HistoryText(v.maintenanceHistory.value)) else None)
  }

  /** `runPredictiveMaintenance`: a value the schema rejects gives the invalid-input error without
      calling the flow; otherwise the flow's prediction is returned as is, and any failure of the
      flow is replaced by the fixed message, so no other error text reaches the caller. */
  function RunPredictiveMaintenance(input: Json, flow: PredictiveInput<string> -> Result<PredictiveOutput, string>)
    : (r: Result<PredictiveOutput, string>)
    ensures ParsePredictiveInput(input).None? ==> r == Failure(InvalidPredictive)
    ensures ParsePredictiveInput(input).Some? ==>
              var sent := PredictiveFlowRequest(ParsePredictiveInput(input).value);
              (r.Success? <==> flow(sent).Success?) && (r.Success? ==> r == flow(sent))
    ensures r.Failure? ==> r.error == InvalidPredictive || r.error == FailedPredictive
  {
    match ParsePredictiveInput(input)
    case None => Failure(InvalidPredictive)
    case Some(v) =>
      match flow(PredictiveFlowRequest(v))
      case Success(result) => Success(result)
      case Failure(_) => Failure(FailedPredictive)
  }

  /** The flow receives exactly the request the caller encoded. */
  lemma PredictiveFlowSeesRequest(x: PredictiveInput<seq<HistoryItem>>,
                                  flow: PredictiveInput<string> -> Result<PredictiveOutput, string>)
    ensures RunPredictiveMaintenance(PredictiveInputJson(x), flow)
            == if flow(PredictiveFlowRequest(x)).Success? then flow(PredictiveFlowRequest(x))
               else Failure(FailedPredictive)
  {
    PredictiveInputRoundTrip(x);
  }

  /** Because the history arrives as JSON text, which is never empty, the prompt carries a history
      line exactly when the request has a history, even an empty one. */
  lemma PredictiveHistoryLineIffPresent(v: PredictiveInput<seq<HistoryItem>>)
    ensures PredictiveFlow.HistoryLines(PredictiveFlowRequest(v)) != [] <==> v.maintenanceHistory.Some?
    ensures v.maintenanceHistory == Some([]) ==>
              PredictiveFlow.HistoryLines(PredictiveFlowRequest(v)) == ["- History: []"]
  {
    if v.maintenanceHistory == Some([]) {
      var none: seq<HistoryItem> := [];
      assert seq(|none|, i requires 0 <= i < |none| => HistoryItemText(none[i])) == [];
      assert HistoryText(none) == "[]";
      assert PredictiveFlowRequest(v).maintenanceHistory == Some("[]");
      assert "- History: " + "[]" == "- History: []";
    }
  }

  /** The history line the action puts in the prompt is one line of the prompt text, whatever
      newlines the tasks and dates hold: JSON text escapes them. */
  lemma PredictiveHistoryOnOneLine(v: PredictiveInput<seq<HistoryItem>>)
    ensures var lines := PredictiveFlow.HistoryLines(PredictiveFlowRequest(v));
            forall k :: 0 <= k < |lines| ==> SingleLine(lines[k])
  {
    if v.maintenanceHistory.Some? {
      var text := HistoryText(v.maintenanceHistory.value);
      HistoryTextSingleLine(v.maintenanceHistory.value);
      assert '\n' !in "- History: ";
      assert SingleLine("- History: " + text);
    }
  }

  /** End to end: a model that answers without a prediction makes the action fail with its fixed
      message, never with the flow's own text. */
  lemma PredictiveNoOutputFails(input: Json, generate: string -> ModelCall<PredictiveOutput>)
    requires ParsePredictiveInput(input).Some?
    requires generate(PredictiveFlow.RenderPrompt(PredictiveFlowRequest(ParsePredictiveInput(input).value)))
             == Replied(None)
    ensures RunPredictiveMaintenance(input, x => PredictiveFlow.PredictMaintenance(x, generate))
            == Failure(FailedPredictive)
  {
  }

  // ---------------------------------------------------------------------------------------------
  // runAiRecommendations

  function RecommendationsFlowRequest(v: RecommendationsInput<seq<HistoryItem>>): (r: RecommendationsInput<string>)
    ensures r.maintenanceHistory.Some? <==> v.maintenanceHistory.Some?
    ensures r.maintenanceHistory.Some? ==> r.maintenanceHistory.value == HistoryText(v.maintenanceHistory.value)
    ensures r.category == v.category && r.brand == v.brand && r.model == v.model
    ensures r.usageFrequency == v.usageFrequency && r.lastMaintenanceDate == v.lastMaintenanceDate
    ensures r.purchaseDate == v.purchaseDate && r.location == v.location
  {
    RecommendationsInput(v.category, v.brand, v.model, v.usageFrequency, v.lastMaintenanceDate,
      v.purchaseDate,
      if v.maintenanceHistory.Some? then Some(HistoryText(v.maintenanceHistory.value)) else None,
      v.location)
  }

  /** `runAiRecommendations`, the same pattern with its own two messages. */
  function RunAiRecommendations(input: Json,
                                flow: RecommendationsInput<string> -> Result<RecommendationsOutput, string>)
    : (r: Result<RecommendationsOutput, string>)
    ensures ParseRecommendationsInput(input).None? ==> r == Failure(InvalidRecommendations)
    ensures ParseRecommendationsInput(input).Some? ==>
              var sent := RecommendationsFlowRequest(ParseRecommendationsInput(input).value);
              (r.Success? <==> flow(sent).Success?) && (r.Success? ==> r == flow(sent))
    ensures r.Failure? ==> r.error == InvalidRecommendations || r.error == FailedRecommendations
  {
    match ParseRecommendationsInput(input)
    case None => Failure(InvalidRecommendations)
    case Some(v) =>
      match flow(RecommendationsFlowRequest(v))
      case Success(result) => Success(result)
      case Failure(_) => Failure(FailedRecommendations)
  }

  lemma RecommendationsFlowSeesRequest(x: RecommendationsInput<seq<HistoryItem>>,
                                       flow: RecommendationsInput<string> -> Result<RecommendationsOutput, string>)
    ensures RunAiRecommendations(RecommendationsInputJson(x), flow)
            == if flow(RecommendationsFlowRequest(x)).Success? then flow(RecommendationsFlowRequest(x))
               else Failure(FailedRecommendations)
  {
    RecommendationsInputRoundTrip(x);
  }

  /** A request without a category never reaches the flow. */
  lemma RecommendationsWithoutCategoryNotSent(f: map<string, Json>,
                                              flow: RecommendationsInput<string> -> Result<RecommendationsOutput, string>)
    requires "category" !in f
    ensures RunAiRecommendations(JObj(f), flow) == Failure(InvalidRecommendations)
  {
    RecommendationsWithoutCategoryRejected(f);
  }

  // ---------------------------------------------------------------------------------------------
  // runChat

  /** `runChat`: the checked request goes to `chat` unchanged. */
  function RunChat(input: Json, flow: ChatInput -> Result<ChatOutput, string>): (r: Result<ChatOutput, string>)
    ensures ParseChatInput(input).None? ==> r == Failure(InvalidChat)
    ensures ParseChatInput(input).Some? ==>
              (r.Success? <==> flow(ParseChatInput(input).value).Success?)
              && (r.Success? ==> r == flow(ParseChatInput(input).value))
    ensures r.Failure? ==> r.error == InvalidChat || r.error == FailedChat
  {
    match ParseChatInput(input)
    case None => Failure(InvalidChat)
    case Some(v) =>
      match flow(v)
      case Success(result) => Success(result)
      case Failure(_) => Failure(FailedChat)
  }

  lemma ChatFlowSeesRequest(x: ChatInput, flow: ChatInput -> Result<ChatOutput, string>)
    ensures RunChat(ChatInputJson(x), flow)
            == if flow(x).Success? then flow(x) else Failure(FailedChat)
  {
    ChatInputRoundTrip(x);
  }

  /** End to end: a valid message whose model call succeeds always gets a non-empty response, and
      the apology when the model says nothing. */
  lemma ChatAnswersEveryValidMessage(x: ChatInput, generate: string -> ModelCall<string>)
    requires generate(ChatFlow.RenderPrompt(x)).Replied?
    ensures RunChat(ChatInputJson(x), y => ChatFlow.Chat(y, generate)).Success?
    ensures RunChat(ChatInputJson(x), y => ChatFlow.Chat(y, generate)).value.response != ""
    ensures generate(ChatFlow.RenderPrompt(x)).output in {None, Some("")} ==>
              RunChat(ChatInputJson(x), y => ChatFlow.Chat(y, generate)).value.response == ChatFlow.Fallback
  {
    ChatInputRoundTrip(x);
  }
}
