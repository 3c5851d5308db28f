/**
 * The floating chat widget (`AIChatbot`): an append-only message log, the input box, a
 * loading flag and the open/closed window. The submit handler awaits a `fetch` of
 * `/api/chat`; it is modelled as `BeginSubmit` (everything before the await) and
 * `CompleteSubmit` (everything after it, given the outcome of the fetch), and `Submit`
 * runs the two back to back.
 */
module ChatWidget {
  import opened Wrappers
  import JsText
  import ChatRoute

  datatype Sender = User | Bot

  /** A logged message; a `None` content is JavaScript `undefined`, which renders as nothing. */
  datatype Message = Message(sender: Sender, content: Option<string>)

  const Welcome := Message(Bot, Some("Welcome to Agentia World! I'm your AI assistant. How can I help you today?"))

  /** The bot message logged on every failure path. */
  const ConnectionApology := "I apologize, but I'm having trouble connecting. Please try again later."

  /** A response body: not JSON, or a JSON object given by its string-valued members. */
  datatype Body = NotJson | Json(fields: map<string, string>)

  /** The outcome of the widget's `fetch`: it threw, or a response arrived with its `ok` flag. */
  datatype ChatResponse = NetworkError | Http(ok: bool, body: Body)

  /** The request body the widget posts, `{ message: text }`, as the route reads it: it has no `messages` member. */
  function RequestFor(text: string): (b: ChatRoute.RequestBody)
    ensures ChatRoute.Forwarded(b).None?
  {
    ChatRoute.Parsed(None)
  }

  /** How the widget sees a route reply: status 200 (`ok`), a JSON object with members `role` and `content`. */
  function ClientView(reply: ChatRoute.Reply): (r: ChatResponse)
    ensures r.Http? && r.ok == (200 <= reply.status < 300) && r.body.Json?
    ensures r.body.fields.Keys == {"role", "content"} && r.body.fields["content"] == reply.content
  {
    Http(200 <= reply.status < 300, Json(map["role" := reply.role, "content" := reply.content]))
  }

  /**
   * The bot message appended once the fetch settles: `data.response` when the response is
   * ok, parses and has no truthy `error`; the connection apology on every other path.
   */
  function BotReply(r: ChatResponse): (m: Message)
    ensures m.sender == Bot
    ensures m.content != Some(ConnectionApology) ==>
      r.Http? && r.ok && r.body.Json? && ("error" !in r.body.fields || r.body.fields["error"] == "")
    ensures r.Http? && r.ok && r.body.Json? && ("error" !in r.body.fields || r.body.fields["error"] == "") ==>
      m.content == (if "response" in r.body.fields then Some(r.body.fields["response"]) else None)
  {
    match r
    case NetworkError => Message(Bot, Some(ConnectionApology))
    case Http(ok, body) =>
      if !ok then Message(Bot, Some(ConnectionApology))
      else match body
        case NotJson => Message(Bot, Some(ConnectionApology))
        case Json(fields) =>
          if "error" in fields && fields["error"] != "" then Message(Bot, Some(ConnectionApology))
          else Message(Bot, if "response" in fields then Some(fields["response"]) else None)
  }

  /**
   * End to end, as written: the widget's body has no `messages`, so the route always
   * answers with its apology, and the reply has no `response` member, so the widget logs a
   * bot message with undefined content; the route's text is never shown.
   */
  lemma RouteReplyNeverShown(text: string, call: ChatRoute.Outbound -> ChatRoute.Upstream)
    ensures ChatRoute.Post(RequestFor(text), call).content == ChatRoute.Apology
    ensures BotReply(ClientView(ChatRoute.Post(RequestFor(text), call))) == Message(Bot, None)
  {
    var fields := ClientView(ChatRoute.Post(RequestFor(text), call)).body.fields;
    assert "error" !in fields && "response" !in fields by {
      assert |"error"| != |"role"| && |"error"| != |"content"|;
      assert |"response"| != |"role"| && |"response"| != |"content"|;
    }
  }

  /** The input is blank: `!inputMessage.trim()`. */
  predicate IsBlank(input: string)
    ensures IsBlank(input) <==> JsText.AllTrimmable(input)
  {
    JsText.Trim(input) == ""
  }

  class Chatbot {
    var isOpen: bool
    var messages: seq<Message>
    var inputMessage: string
    var isLoading: bool
    var iframeLoaded: bool

    /** The log starts with the welcome message and only grows; nothing ever sets `iframeLoaded`. */
    ghost predicate Valid()
      reads this
    {
      |messages| >= 1 && messages[0] == Welcome && !iframeLoaded
    }

    constructor ()
      ensures Valid()
      ensures messages == [Welcome]
      ensures !isOpen && inputMessage == "" && !isLoading && !iframeLoaded
    {
      isOpen := false;
      messages := [Welcome];
      inputMessage := "";
      isLoading := false;
      iframeLoaded := false;
    }

    /** Typing into the input box. */
    method SetInput(text: string)
      requires Valid()
      modifies this
      ensures Valid()
      ensures inputMessage == text
      ensures messages == old(messages) && isLoading == old(isLoading)
      ensures isOpen == old(isOpen) && iframeLoaded == old(iframeLoaded)
    {
      inputMessage := text;
    }

    /** `handleToggle`: flips the window; closing it also forgets the embedded frame. */
    method Toggle()
      requires Valid()
      modifies this
      ensures Valid()
      ensures isOpen == !old(isOpen)
      ensures old(isOpen) ==> !iframeLoaded
      ensures !old(isOpen) ==> iframeLoaded == old(iframeLoaded)
      ensures messages == old(messages) && inputMessage == old(inputMessage) && isLoading == old(isLoading)
    {
      if isOpen {
        iframeLoaded := false;
      }
      isOpen := !isOpen;
    }

    /** The floating launcher button. */
    method OpenWindow()
      requires Valid()
      modifies this
      ensures Valid()
      ensures isOpen
      ensures messages == old(messages) && inputMessage == old(inputMessage) && isLoading == old(isLoading)
      ensures iframeLoaded == old(iframeLoaded)
    {
      isOpen := true;
    }

    /** The backdrop and the header's close button. */
    method CloseWindow()
      requires Valid()
      modifies this
      ensures Valid()
      ensures !isOpen
      ensures messages == old(messages) && inputMessage == old(inputMessage) && isLoading == old(isLoading)
      ensures iframeLoaded == old(iframeLoaded)
    {
      isOpen := false;
    }

    /**
     * `handleSubmit` up to the await. Blank input changes nothing and sends nothing;
     * otherwise the trimmed text is logged as one user message, the input is cleared, the
     * loading flag is raised and `sent` is the text posted.
     */
    method BeginSubmit() returns (sent: Option<string>)
      requires Valid()
      modifies this
      ensures Valid()
      ensures isOpen == old(isOpen) && iframeLoaded == old(iframeLoaded)
      ensures IsBlank(old(inputMessage)) ==>
        sent.None? && messages == old(messages) && inputMessage == old(inputMessage) && isLoading == old(isLoading)
      ensures !IsBlank(old(inputMessage)) ==>
        && sent == Some(JsText.Trim(old(inputMessage)))
        && messages == old(messages) + [Message(User, sent)]
        && inputMessage == ""
        && isLoading
    {
      var userMessage := JsText.Trim(inputMessage);
      if userMessage == "" {
        return None;
      }
      inputMessage := "";
      messages := messages + [Message(User, Some(userMessage))];
      isLoading := true;
      sent := Some(userMessage);
    }

    /** `handleSubmit` after the await: one bot message is appended and loading ends, on every path. */
    method CompleteSubmit(response: ChatResponse)
      requires Valid()
      modifies this
      ensures Valid()
      ensures messages == old(messages) + [BotReply(response)]
      ensures !isLoading
      ensures inputMessage == old(inputMessage) && isOpen == old(isOpen) && iframeLoaded == old(iframeLoaded)
    {
      messages := messages + [BotReply(response)];
      isLoading := false;
    }

    /** One whole submit with nothing in between: blank input changes nothing, else exactly a user then a bot message. */
    method Submit(response: ChatResponse)
      requires Valid()
      modifies this
      ensures Valid()
      ensures isOpen == old(isOpen) && iframeLoaded == old(iframeLoaded)
      ensures IsBlank(old(inputMessage)) ==>
        messages == old(messages) && inputMessage == old(inputMessage) && isLoading == old(isLoading)
      ensures !IsBlank(old(inputMessage)) ==>
        && messages == old(messages) + [Message(User, Some(JsText.Trim(old(inputMessage)))), BotReply(response)]
        && inputMessage == ""
        && !isLoading
    {
      var sent := BeginSubmit();
      if sent.Some? {
        CompleteSubmit(response);
      }
    }
  }

  /** What a non-blank submit logs is exactly the typed text without its surrounding whitespace. */
  lemma LoggedTextIsTypedText(lead: string, text: string, trail: string)
    requires JsText.AllTrimmable(lead) && JsText.AllTrimmable(trail)
    requires text != [] && !JsText.IsTrimmable(text[0]) && !JsText.IsTrimmable(text[|text| - 1])
    ensures !IsBlank(lead + text + trail) && JsText.Trim(lead + text + trail) == text
  {
    JsText.TrimRemovesPadding(lead, text, trail);
  }
}
