/**
 * The chat widget (src/components/ChatBot/ChatBot.jsx): its state cells, the
 * send lifecycle (guard, user message, then exactly one bot reply or error),
 * the open/minimise toggles and the suggestion list. The network call is an
 * input: a request leaves `HandleSendMessage`, and its outcome comes back
 * through `ReceiveOutcome`. Timestamps and the typing delay are left out;
 * `Date.now()` is the `now` parameter.
 */
module ChatBot {
  import opened Options
  import opened JsStrings

  datatype Sender = User | Bot

  datatype Message = Message(
    id: int,
    text: string,
    sender: Sender,
    isError: bool,
    source: Option<string>,
    provider: Option<string>)

  const GreetingText := "Hi! I'm Gerald's AI assistant. Ask me anything about his projects, skills, or experience!"
  const ErrorText := "Sorry, I'm having trouble connecting right now. Please try again later."

  const Greeting := Message(1, GreetingText, Bot, false, None, None)

  /** How the awaited `chatbotService.sendMessage` ended. */
  datatype ChatOutcome = Answered(reply: string, source: Option<string>, provider: Option<string>) | Failed

  /** The bot message an outcome produces (id `Date.now() + 1`); only a failure is marked as an error. */
  function BotMessage(outcome: ChatOutcome, now: int): (m: Message)
    ensures m.sender == Bot && m.id == now + 1
    ensures m.isError <==> outcome.Failed?
    ensures outcome.Answered? ==> m.text == outcome.reply && m.source == outcome.source && m.provider == outcome.provider
  {
    match outcome
    case Answered(reply, source, provider) => Message(now + 1, reply, Bot, false, source, provider)
    case Failed => Message(now + 1, ErrorText, Bot, true, None, None)
  }

  /** The send guard, and equally the send button's `disabled`: a blank input or a request in flight. */
  predicate SendBlocked(inputMessage: string, isLoading: bool) {
    IsBlank(inputMessage) || isLoading
  }

  /** The guard as the source writes it, `!inputMessage.trim() || isLoading`, is `SendBlocked`. */
  lemma SendBlockedIsTrimGuard(inputMessage: string, isLoading: bool)
    ensures SendBlocked(inputMessage, isLoading) <==> Trim(inputMessage) == [] || isLoading
  {
    TrimEmptyIffBlank(inputMessage);
  }

  /** The suggestion list shows while the greeting is the only message. */
  predicate SuggestionsVisible(messages: seq<Message>) {
    |messages| == 1
  }

  /** Senders alternate: the greeting at 0, then user at odd and bot at even indices. */
  predicate Alternating(messages: seq<Message>) {
    forall i :: 0 <= i < |messages| ==> (messages[i].sender == User <==> i % 2 == 1)
  }

  /**
   * Appending a message whose sender fits its index keeps the greeting first and the
   * senders alternating, and flips the parity of the length.
   */
  lemma AppendKeepsShape(messages: seq<Message>, m: Message)
    requires |messages| >= 1 && messages[0] == Greeting && Alternating(messages)
    requires m.sender == User <==> |messages| % 2 == 1
    ensures |messages + [m]| >= 2 && (messages + [m])[0] == Greeting
    ensures Alternating(messages + [m])
    ensures |messages + [m]| % 2 == 0 <==> |messages| % 2 == 1
  {
    var r := messages + [m];
    assert r[0] == messages[0];
    forall i | 0 <= i < |r|
      ensures r[i].sender == User <==> i % 2 == 1
    {
      if i < |messages| {
        assert r[i] == messages[i];
      }
    }
  }

  /** Once a second message exists, the suggestions never show again as the list grows. */
  lemma SuggestionsNeverReturn(before: seq<Message>, after: seq<Message>)
    requires |before| >= 2 && before <= after
    ensures !SuggestionsVisible(after)
  {
    assert |before| <= |after|;
  }

  /** While the suggestions show, the greeting is alone and no request is in flight. */
  lemma SuggestionsOnlyWithGreeting(messages: seq<Message>, isLoading: bool)
    requires |messages| >= 1 && messages[0] == Greeting
    requires isLoading <==> |messages| % 2 == 0
    requires SuggestionsVisible(messages)
    ensures messages == [Greeting] && !isLoading
  {
    assert messages == [messages[0]];
  }

  /** The mounted widget. */
  class ChatWidget {
    var isOpen: bool
    var isMinimized: bool
    var messages: seq<Message>
    var inputMessage: string
    var isTyping: bool
    var isLoading: bool

    /**
     * The widget's invariant: the greeting stays first, senders alternate, a request
     * is in flight exactly when the last message is the user's, and typing shows
     * exactly while loading.
     */
    ghost predicate Valid()
      reads this
    {
      && |messages| >= 1 && messages[0] == Greeting
      && Alternating(messages)
      && (isLoading <==> |messages| % 2 == 0)
      && isTyping == isLoading
    }

    constructor ()
      ensures Valid()
      ensures messages == [Greeting] && !isOpen && !isMinimized
      ensures inputMessage == "" && !isTyping && !isLoading
    {
      isOpen := false;
      isMinimized := false;
      messages := [Greeting];
      inputMessage := "";
      isTyping := false;
      isLoading := false;
    }

    /**
     * The synchronous part of `handleSendMessage`. A blocked send changes nothing;
     * otherwise the untrimmed input is appended as a user message (id `now`), the input
     * is cleared, loading and typing start, and that text is what goes to the service.
     */
    method HandleSendMessage(now: int) returns (request: Option<string>)
      requires Valid()
      modifies this
      ensures Valid()
      ensures old(SendBlocked(inputMessage, isLoading)) ==>
        request == None && messages == old(messages) && inputMessage == old(inputMessage)
        && isLoading == old(isLoading) && isTyping == old(isTyping)
      ensures !old(SendBlocked(inputMessage, isLoading)) ==>
        && request == Some(old(inputMessage))
        && messages == old(messages) + [Message(now, old(inputMessage), User, false, None, None)]
        && inputMessage == "" && isLoading && isTyping
        && !SuggestionsVisible(messages)
      ensures isOpen == old(isOpen) && isMinimized == old(isMinimized)
    {
      var blocked := SendBlocked(inputMessage, isLoading);
      if blocked {
        return None;
      }
      var text := inputMessage;
      var m := Message(now, text, User, false, None, None);
      AppendKeepsShape(messages, m);
      messages := messages + [m];
      inputMessage := "";
      isLoading := true;
      isTyping := true;
      request := Some(text);
    }

    /** The continuation of an accepted send: one bot message is appended and both flags clear. */
    method ReceiveOutcome(outcome: ChatOutcome, now: int)
      requires Valid() && isLoading
      modifies this
      ensures Valid()
      ensures messages == old(messages) + [BotMessage(outcome, now)]
      ensures !isLoading && !isTyping && !SuggestionsVisible(messages)
      ensures inputMessage == old(inputMessage) && isOpen == old(isOpen) && isMinimized == old(isMinimized)
    {
      AppendKeepsShape(messages, BotMessage(outcome, now));
      messages := messages + [BotMessage(outcome, now)];
      isTyping := false;
      isLoading := false;
    }

    /** `handleKeyPress`: Enter without Shift runs `HandleSendMessage`; every other key does nothing here. */
    method HandleKeyPress(key: string, shiftKey: bool, now: int) returns (request: Option<string>)
      requires Valid()
      modifies this
      ensures Valid()
      ensures !(key == "Enter" && !shiftKey) || old(SendBlocked(inputMessage, isLoading)) ==>
        request == None && messages == old(messages) && inputMessage == old(inputMessage)
        && isLoading == old(isLoading) && isTyping == old(isTyping)
      ensures key == "Enter" && !shiftKey && !old(SendBlocked(inputMessage, isLoading)) ==>
        && request == Some(old(inputMessage))
        && messages == old(messages) + [Message(now, old(inputMessage), User, false, None, None)]
        && inputMessage == "" && isLoading && isTyping
      ensures isOpen == old(isOpen) && isMinimized == old(isMinimized)
    {
      request := None;
      if key == "Enter" && !shiftKey {
        request := HandleSendMessage(now);
      }
    }

    /** `toggleChat`: flips `isOpen`; opening also un-minimises. */
    method ToggleChat()
      modifies this
      ensures isOpen == !old(isOpen)
      ensures isMinimized == (if isOpen then false else old(isMinimized))
      ensures messages == old(messages) && inputMessage == old(inputMessage)
      ensures isLoading == old(isLoading) && isTyping == old(isTyping)
    {
      var wasOpen := isOpen;
      isOpen := !wasOpen;
      if !wasOpen {
        isMinimized := false;
      }
    }

    /** `toggleMinimize`: flips `isMinimized` only. */
    method ToggleMinimize()
      modifies this
      ensures isMinimized == !old(isMinimized) && isOpen == old(isOpen)
      ensures messages == old(messages) && inputMessage == old(inputMessage)
      ensures isLoading == old(isLoading) && isTyping == old(isTyping)
    {
      isMinimized := !isMinimized;
    }

    /** The textarea's `onChange`, and `handleSuggestionClick`: the input takes the given text. */
    method SetInput(text: string)
      modifies this
      ensures inputMessage == text
      ensures messages == old(messages) && isOpen == old(isOpen) && isMinimized == old(isMinimized)
      ensures isLoading == old(isLoading) && isTyping == old(isTyping)
    {
      inputMessage := text;
    }
  }

  /** The four quick suggestions offered under the greeting. */
  const QuickSuggestions: seq<string> := [
    "What projects has Gerald built?",
    "What are his technical skills?",
    "Tell me about his experience",
    "How can I contact him?"
  ]

  /** Every quick suggestion, once placed in the input, passes the send guard while idle. */
  lemma SuggestionsAreSendable()
    ensures forall i :: 0 <= i < |QuickSuggestions| ==> !SendBlocked(QuickSuggestions[i], false)
  {
    forall i | 0 <= i < |QuickSuggestions|
      ensures !IsBlank(QuickSuggestions[i])
    {
      var s := QuickSuggestions[i];
      assert s[0] == 'W' || s[0] == 'T' || s[0] == 'H';
      assert !IsJsWhitespace(s[0]);
    }
  }
}
