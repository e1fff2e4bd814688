/**
 * The chat assistant's controller (components/ChatBot.tsx): an append-only
 * conversation, an input box and a loading flag. A send is split at its `await`
 * into BeginSend (guard, optimistic user message, history snapshot) and
 * CompleteSend (the assistant's message).
 */
module Chat {
  import opened Wrappers
  import opened Types
  import opened Text
  import Gateway

  const GreetingEn: string := "Hi! How can I assist you with services in Bangladesh today?"
  const GreetingBn: string := "হ্যালো! আজ আমি আপনাকে কীভাবে সাহায্য করতে পারি?"

  /** The assistant's opening message, in the language of the first render. */
  function Greeting(lang: Language): (m: ChatMessage)
    ensures m.role == Model && m.text != "" && m.groundingUrls.None?
  {
    ChatMessage(Model, if lang == En then GreetingEn else GreetingBn, None)
  }

  /** The message a send appends at once. */
  function UserMessage(text: string): ChatMessage {
    ChatMessage(User, text, None)
  }

  /** The turn list handed to the gateway: one turn per message, role and text carried over. */
  function HistoryOf(msgs: seq<ChatMessage>): (h: seq<Gateway.Turn>)
    ensures |h| == |msgs|
    ensures forall i :: 0 <= i < |msgs| ==> h[i] == Gateway.Turn(msgs[i].role, [msgs[i].text])
  {
    if msgs == [] then [] else [Gateway.Turn(msgs[0].role, [msgs[0].text])] + HistoryOf(msgs[1..])
  }

  /**
   * The turns the gateway sends are exactly the history of the conversation as it
   * stands once the user's message has been appended.
   */
  lemma RequestMatchesConversation(msgs: seq<ChatMessage>, prompt: string)
    ensures Gateway.Contents(prompt, HistoryOf(msgs)) == HistoryOf(msgs + [UserMessage(prompt)])
  {
    var lhs := Gateway.Contents(prompt, HistoryOf(msgs));
    var rhs := HistoryOf(msgs + [UserMessage(prompt)]);
    assert forall i :: 0 <= i < |msgs| ==> (msgs + [UserMessage(prompt)])[i] == msgs[i];
    assert forall i :: 0 <= i < |lhs| ==> lhs[i] == rhs[i];
  }

  /** `result.text || "..."` */
  function ReplyText(text: Option<string>): (r: string)
    ensures r != ""
    ensures Gateway.Truthy(text) ==> r == text.value
    ensures !Gateway.Truthy(text) ==> r == "..."
  {
    if Gateway.Truthy(text) then text.value else "..."
  }

  /** The assistant's message for a gateway reply. */
  function ModelMessage(reply: Gateway.Reply): (m: ChatMessage)
    ensures m.role == Model && m.text != ""
    ensures m.text == ReplyText(reply.text)
    ensures m.groundingUrls == reply.urls
  {
    ChatMessage(Model, ReplyText(reply.text), reply.urls)
  }

  /** A failed call shows the apology and no links. */
  lemma FailureShowsApology(prompt: string, history: seq<Gateway.Turn>, service: Gateway.Request -> Gateway.ServiceResponse)
    requires service(Gateway.BuildRequest(prompt, history)).Failed?
    ensures ModelMessage(Gateway.GetResponse(prompt, history, service)) == ChatMessage(Model, Gateway.Apology, Some([]))
    ensures DisplayedLinks(ModelMessage(Gateway.GetResponse(prompt, history, service))) == []
  {
  }

  /** `groundingUrls.slice(0, 3)`, shown only when the list is present and non-empty. */
  function DisplayedLinks(m: ChatMessage): (r: seq<Link>)
    ensures |r| <= 3
    ensures m.groundingUrls.None? ==> r == []
    ensures m.groundingUrls.Some? ==>
              var urls := m.groundingUrls.value;
              |r| == (if |urls| < 3 then |urls| else 3) && r == urls[..|r|]
  {
    match m.groundingUrls
    case None => []
    case Some(urls) => if |urls| <= 3 then urls else urls[..3]
  }

  class ChatBot {
    /** The greeting seeded when the panel was first rendered. */
    const greeting: ChatMessage
    var isOpen: bool
    var input: string
    var messages: seq<ChatMessage>
    var isLoading: bool

    /** The greeting is always the first message; messages are only ever appended. */
    ghost predicate Valid()
      reads this
    {
      |messages| >= 1 && messages[0] == greeting && greeting.role == Model
    }

    constructor (lang: Language)
      ensures Valid()
      ensures greeting == Greeting(lang) && messages == [Greeting(lang)]
      ensures input == "" && !isLoading && !isOpen
    {
      greeting := Greeting(lang);
      messages := [Greeting(lang)];
      input := "";
      isLoading := false;
      isOpen := false;
    }

    /** The floating button: open or close the panel. */
    method ToggleOpen()
      requires Valid()
      modifies this
      ensures Valid()
      ensures isOpen == !old(isOpen)
      ensures messages == old(messages) && input == old(input) && isLoading == old(isLoading)
    {
      isOpen := !isOpen;
    }

    /** Typing in the input box. */
    method SetInput(text: string)
      requires Valid()
      modifies this
      ensures Valid()
      ensures input == text
      ensures messages == old(messages) && isLoading == old(isLoading) && isOpen == old(isOpen)
    {
      input := text;
    }

    /**
     * The part of `handleSend` before the `await`. A blank input or a pending reply
     * rejects the send and changes nothing; otherwise the untrimmed input is appended
     * as a user message, the input is cleared, loading starts, and the prompt and the
     * history of the messages before the new one are returned for the gateway.
     */
    method BeginSend() returns (accepted: bool, prompt: string, history: seq<Gateway.Turn>)
      requires Valid()
      modifies this
      ensures Valid()
      ensures accepted <==> Trim(old(input)) != "" && !old(isLoading)
      ensures accepted ==> messages == old(messages) + [UserMessage(old(input))]
      ensures accepted ==> input == "" && isLoading
      ensures accepted ==> prompt == old(input) && history == HistoryOf(old(messages))
      ensures !accepted ==> messages == old(messages) && input == old(input) && isLoading == old(isLoading)
      ensures isOpen == old(isOpen)
    {
      if Trim(input) == "" || isLoading {
        return false, "", [];
      }
      accepted, prompt := true, input;
      history := HistoryOf(messages);
      messages := messages + [UserMessage(input)];
      input := "";
      isLoading := true;
    }

    /** The part of `handleSend` after the `await`: append the assistant's message and stop loading. */
    method CompleteSend(reply: Gateway.Reply)
      requires Valid()
      modifies this
      ensures Valid()
      ensures messages == old(messages) + [ModelMessage(reply)]
      ensures !isLoading
      ensures input == old(input) && isOpen == old(isOpen)
    {
      messages := messages + [ModelMessage(reply)];
      isLoading := false;
    }

    /**
     * A whole `handleSend` with nothing happening during the `await`: an accepted
     * send grows the conversation by exactly a user message and the assistant's reply.
     */
    method Send(service: Gateway.Request -> Gateway.ServiceResponse) returns (accepted: bool)
      requires Valid()
      modifies this
      ensures Valid()
      ensures accepted <==> Trim(old(input)) != "" && !old(isLoading)
      ensures accepted ==>
                messages == old(messages) +
                  [UserMessage(old(input)),
                   ModelMessage(Gateway.GetResponse(old(input), HistoryOf(old(messages)), service))]
      ensures accepted ==> input == "" && !isLoading
      ensures !accepted ==> messages == old(messages) && input == old(input) && isLoading == old(isLoading)
      ensures isOpen == old(isOpen)
    {
      var prompt, history;
      accepted, prompt, history := BeginSend();
      if accepted {
        var reply := Gateway.GetResponse(prompt, history, service);
        CompleteSend(reply);
      }
    }
  }
}
