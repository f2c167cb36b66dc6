/** The chat panel (src/components/chat/ai-chat.tsx): a transcript that grows by one user message
    and one model message per send, an input box, and a loading flag.

    The asynchronous send is split at its `await`: `BeginSend` is everything before the call to
    the chat action and `FinishSend` everything after it; `SendMessage` runs both around a given
    action. */
module AiChat {
  import opened Wrappers
  import opened Text
  import opened Schemas

  const SorryText := "Sorry, something went wrong. Please try again."

  /** Messages alternate user, model, user, model, ... and end with a model message. */
  predicate Alternating(msgs: seq<ChatTurn>)
  {
    |msgs| % 2 == 0 && forall i :: 0 <= i < |msgs| ==> msgs[i].role == (if i % 2 == 0 then User else Model)
  }

  /** The request the handler sends: the typed text and the transcript as it was before it. */
  function Request(msgs: seq<ChatTurn>, text: string): ChatInput
  {
    ChatInput(text, Some(msgs))
  }

  /** The model message appended once the action has answered or failed. */
  function ReplyTurn(outcome: Result<ChatOutput, string>): (r: ChatTurn)
    ensures r.role == Model
    ensures r.content == if outcome.Success? then outcome.value.response else SorryText
  {
    ChatTurn(Model, if outcome.Success? then outcome.value.response else SorryText)
  }

  /** The transcript after one completed send of `text`. */
  function Exchange(msgs: seq<ChatTurn>, text: string, outcome: Result<ChatOutput, string>): (r: seq<ChatTurn>)
    ensures |r| == |msgs| + 2 && r[..|msgs|] == msgs
    ensures r[|msgs|] == ChatTurn(User, text) && r[|msgs| + 1].role == Model
  {
    msgs + [ChatTurn(User, text), ReplyTurn(outcome)]
  }

  /** A send adds exactly two messages, the user's then the model's, and leaves every earlier
      message as it was; so the transcript keeps alternating. */
  lemma ExchangeKeepsAlternation(msgs: seq<ChatTurn>, text: string, outcome: Result<ChatOutput, string>)
    requires Alternating(msgs)
    ensures var after := Exchange(msgs, text, outcome);
            && |after| == |msgs| + 2
            && after[..|msgs|] == msgs
            && after[|msgs|] == ChatTurn(User, text)
            && after[|msgs| + 1].role == Model
            && Alternating(after)
  {
    var after := Exchange(msgs, text, outcome);
    forall i | 0 <= i < |after| ensures after[i].role == (if i % 2 == 0 then User else Model) {
      if i < |msgs| {
        assert after[i] == msgs[i];
      }
    }
  }

  /** Every request the panel builds passes the chat action's schema check unchanged: the message
      is any text and every role in the transcript is "user" or "model". */
  lemma RequestPassesSchema(msgs: seq<ChatTurn>, text: string)
    ensures ParseChatInput(ChatInputJson(Request(msgs, text))) == Some(Request(msgs, text))
  {
    ChatInputRoundTrip(Request(msgs, text));
  }

  class ChatPanel {
    var messages: seq<ChatTurn>
    var input: string
    var isLoading: bool

    /** Idle, the transcript alternates; while loading, it also holds the unanswered user message. */
    predicate Valid()
      reads this
    {
      if isLoading then
        |messages| > 0 && messages[|messages| - 1].role == User && Alternating(messages[..|messages| - 1])
      else
        Alternating(messages)
    }

    constructor()
      ensures Valid()
      ensures messages == [] && input == "" && !isLoading
    {
      messages := [];
      input := "";
      isLoading := false;
    }

    /** Typing into the box; the box is disabled while loading. */
    method Type(text: string)
      modifies this
      ensures input == (if old(isLoading) then old(input) else text)
      ensures messages == old(messages) && isLoading == old(isLoading)
    {
      if !isLoading {
        input := text;
      }
    }

    /** The handler up to the call: blank input changes nothing and sends nothing; otherwise the
        untrimmed input becomes a user message, the box is cleared, loading starts, and the
        request carries the transcript from before the new message. The send button and the box
        are disabled while loading, so a send starts only when idle. */
    method BeginSend() returns (request: Option<ChatInput>)
      requires Valid() && !isLoading
      modifies this
      ensures Valid()
      ensures IsBlank(old(input)) ==>
                request == None && messages == old(messages) && input == old(input) && !isLoading
      ensures !IsBlank(old(input)) ==>
                && request == Some(Request(old(messages), old(input)))
                && messages == old(messages) + [ChatTurn(User, old(input))]
                && input == "" && isLoading
    {
      if IsBlank(input) {
        return None;
      }
      request := Some(Request(messages, input));
      assert (messages + [ChatTurn(User, input)])[..|messages|] == messages;
      messages := messages + [ChatTurn(User, input)];
      input := "";
      isLoading := true;
    }

    /** The handler after the call: the answer, or the apology when the call failed, is appended
        as a model message, and loading stops. */
    method FinishSend(outcome: Result<ChatOutput, string>)
      requires Valid() && isLoading
      modifies this
      ensures Valid() && !isLoading
      ensures messages == old(messages) + [ReplyTurn(outcome)]
      ensures input == old(input)
    {
      var before := messages[..|messages| - 1];
      var user := messages[|messages| - 1];
      assert messages == before + [user];
      messages := messages + [ReplyTurn(outcome)];
      ExchangeKeepsAlternation(before, user.content, outcome);
      assert messages == Exchange(before, user.content, outcome);
      isLoading := false;
    }

    /** `handleSendMessage` with `reply` standing for the chat action. */
    method SendMessage(reply: ChatInput -> Result<ChatOutput, string>)
      requires Valid() && !isLoading
      modifies this
      ensures Valid() && !isLoading
      ensures IsBlank(old(input)) ==> messages == old(messages) && input == old(input)
      ensures !IsBlank(old(input)) ==>
                && messages == Exchange(old(messages), old(input), reply(Request(old(messages), old(input))))
                && input == ""
    {
      var request := BeginSend();
      if request.Some? {
        FinishSend(reply(request.value));
      }
    }
  }
}
