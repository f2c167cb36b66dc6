/** The chat flow (src/ai/flows/chat.ts): render the prompt with the conversation so far, ask the
    model for text, and fall back to a fixed apology when the reply is empty. */
module ChatFlow {
  import opened Wrappers
  import opened Text
  import opened Schemas
  import opened ModelCalls

  const Fallback := "I'm sorry, I couldn't generate a response."

  const TurnPrefix := "  - "
  const ChatHeader := "  Here is the chat history:"
  const MessagePrefix := "  User's new message: "

  /** Handlebars truthiness of the history: present and not the empty list. */
  predicate HistoryTruthy(h: Option<seq<ChatTurn>>)
  {
    h.Some? && h.value != []
  }

  // The template's long sentence is written as a concatenation of short literals.
  function Persona(): string
  {
    "You are a helpful AI " + "assistant for the " + "Homewise app. Your " + "goal is to answer " +
      "user questions about " + "home and appliance " + "maintenance. Be " + "friendly, helpful, " +
      "and concise."
  }

  /** One iteration of `{{#each history}}`. The role is written with the escaping form `{{role}}`,
      which leaves "user" and "model" unchanged. */
  function TurnLine(t: ChatTurn): string
  {
    TurnPrefix + TurnDetails(t)
  }

  function TurnDetails(t: ChatTurn): string
  {
    RoleName(t.role) + ": " + t.content
  }

  function TurnLines(ts: seq<ChatTurn>): seq<string>
  {
    seq(|ts|, i requires 0 <= i < |ts| => TurnLine(ts[i]))
  }

  /** The `{{#if history}}` block; its standalone tag lines leave no trace. */
  function HistoryBlock(x: ChatInput): seq<string>
  {
    if HistoryTruthy(x.history) then [ChatHeader] + TurnLines(x.history.value) else []
  }

  function IntroLines(): seq<string>
  {
    [Persona(), ""]
  }

  function MessageLine(x: ChatInput): string
  {
    MessagePrefix + x.message
  }

  /** The closing lines; the template ends with a newline and two spaces. */
  function OutroLines(x: ChatInput): seq<string>
  {
    ["", MessageLine(x), "  "]
  }

  function PromptLines(x: ChatInput): seq<string>
  {
    IntroLines() + HistoryBlock(x) + OutroLines(x)
  }

  function RenderPrompt(x: ChatInput): string
  {
    JoinLines(PromptLines(x))
  }

  /** `chat`: a failed call is the only failure; an absent or empty reply becomes the fixed apology,
      and any other reply is the response word for word. The response is never empty. */
  function Chat(x: ChatInput, generate: string -> ModelCall<string>): (r: Result<ChatOutput, string>)
    ensures r.Failure? <==> generate(RenderPrompt(x)).CallFailed?
    ensures r.Success? ==> r.value.response != ""
    ensures generate(RenderPrompt(x)) in {Replied(None), Replied(Some(""))} ==> r == Success(ChatOutput(Fallback))
    ensures forall s :: generate(RenderPrompt(x)) == Replied(Some(s)) && s != "" ==> r == Success(ChatOutput(s))
  {
    match generate(RenderPrompt(x))
    case CallFailed(reason) => Failure(reason)
    case Replied(output) =>
      Success(ChatOutput(if output.Some? && output.value != "" then output.value else Fallback))
  }

  // ---------------------------------------------------------------------------------------------
  // Properties of the prompt

  /** A marker is one of the two line openings the properties look for. */
  predicate IsMarker(p: string)
  {
    p == TurnPrefix || p == ChatHeader
  }

  lemma PersonaUnmarked(p: string)
    requires IsMarker(p)
    ensures !StartsWith(Persona(), p)
  {
    assert Persona()[2] == 'u';
    PrefixMismatch(Persona(), "", p, 2);
  }

  /** The lines before and after the history block carry no marker. */
  lemma FixedLinesUnmarked(x: ChatInput, p: string)
    requires IsMarker(p)
    ensures WithPrefix(IntroLines(), p) == [] && WithPrefix(OutroLines(x), p) == []
  {
    PersonaUnmarked(p);
    PrefixMismatch(MessagePrefix, x.message, p, 2);
    WithPrefixNone(IntroLines(), p);
    WithPrefixNone(OutroLines(x), p);
  }

  lemma TurnLinesMarked(ts: seq<ChatTurn>, p: string)
    requires IsMarker(p)
    ensures WithPrefix(TurnLines(ts), p) == if p == TurnPrefix then TurnLines(ts) else []
  {
    var turns := TurnLines(ts);
    if p == TurnPrefix {
      forall k | 0 <= k < |turns| ensures StartsWith(turns[k], p) {
        StartsWithConcat(p, TurnDetails(ts[k]));
      }
      WithPrefixAll(turns, p);
    } else {
      forall k | 0 <= k < |turns| ensures !StartsWith(turns[k], p) {
        PrefixMismatch(TurnPrefix, TurnDetails(ts[k]), p, 2);
      }
      WithPrefixNone(turns, p);
    }
  }

  lemma HistoryBlockMarked(x: ChatInput, p: string)
    requires IsMarker(p)
    ensures WithPrefix(HistoryBlock(x), p)
            == if !HistoryTruthy(x.history) then []
               else if p == ChatHeader then [ChatHeader]
               else TurnLines(x.history.value)
  {
    if HistoryTruthy(x.history) {
      TurnLinesMarked(x.history.value, p);
      WithPrefixOne(ChatHeader, p);
      assert ChatHeader + "" == ChatHeader;
      if p == ChatHeader {
        StartsWithConcat(p, "");
      } else {
        PrefixMismatch(ChatHeader, "", p, 2);
      }
      WithPrefixConcat([ChatHeader], TurnLines(x.history.value), p);
    }
  }

  /** The prompt has one "  - role: content" line per history turn, in the conversation's order;
      an absent or empty history gives none. */
  lemma TurnLinesInOrder(x: ChatInput)
    ensures WithPrefix(PromptLines(x), TurnPrefix) == TurnLines(if x.history.Some? then x.history.value else [])
  {
    FixedLinesUnmarked(x, TurnPrefix);
    HistoryBlockMarked(x, TurnPrefix);
    WithPrefixAround(IntroLines(), HistoryBlock(x), OutroLines(x), TurnPrefix);
  }

  /** The history header appears exactly when the history is present and non-empty. */
  lemma HistoryHeaderIffTruthy(x: ChatInput)
    ensures WithPrefix(PromptLines(x), ChatHeader) == if HistoryTruthy(x.history) then [ChatHeader] else []
  {
    FixedLinesUnmarked(x, ChatHeader);
    HistoryBlockMarked(x, ChatHeader);
    WithPrefixAround(IntroLines(), HistoryBlock(x), OutroLines(x), ChatHeader);
  }

  /** The new message is the second-to-last line, after every history line. */
  lemma MessageFollowsHistory(x: ChatInput)
    ensures var lines := PromptLines(x);
            && lines[|lines| - 2] == MessageLine(x)
            && forall k :: 0 <= k < |lines| && StartsWith(lines[k], TurnPrefix) ==> k < |lines| - 2
  {
    var lines := PromptLines(x);
    var n := |lines|;
    assert lines[n - 2] == MessageLine(x) && lines[n - 1] == "  ";
    PrefixMismatch(MessagePrefix, x.message, TurnPrefix, 2);
  }
}
