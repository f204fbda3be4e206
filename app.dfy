/**
 * The webhook of the chatbot: Meta's subscription handshake, and the POST
 * handler that answers a WhatsApp message from the knowledge base or, failing
 * that, from the DeepSeek completion API, and sends the reply back.
 *
 * The HTTP layer is not modelled. A request arrives already decoded, the
 * completion API is an oracle `llm` from prompt to outcome, and the server
 * records every prompt it sends to the completion API and every payload it
 * posts to the messaging API.
 */
module App {
  import opened Wrappers
  import opened Text
  import opened Knowledge

  /** The token used when the WEBHOOK_TOKEN environment variable is unset. */
  const DefaultWebhookToken := "bartim123"

  /** The text put in front of the user's message when the completion API is asked. */
  const PromptPrefix := "Pertanyaan tentang Dinas Tenaga Kerja Barito Timur: "

  /** The reply sent when asking the completion API fails in any way. */
  const Apology := "Maaf, sedang ada gangguan teknis. Silakan coba lagi nanti atau hubungi kami langsung."

  /** `os.getenv("WEBHOOK_TOKEN", "bartim123")`, given the variable's value if it is set. */
  function WebhookToken(env: Option<string>): (token: string)
    ensures env.None? ==> token == DefaultWebhookToken
    ensures env.Some? ==> token == env.value
  {
    match env
    case Some(value) => value
    case None => DefaultWebhookToken
  }

  /** The query parameters of the verification GET; each may be missing. */
  datatype VerifyQuery = VerifyQuery(mode: Option<string>, verifyToken: Option<string>, challenge: Option<string>)

  /** The error a failed POST reports in its JSON body. */
  datatype HandlerError =
    | ExtractionFailed           // the message fields are missing from the request body
    | LookupFailed(error: LookupError)  // `cari_jawaban` raised

  /** A response body: plain text (possibly None), or a JSON object with "status" and perhaps "message". */
  datatype Body =
    | PlainText(text: Option<string>)
    | Json(status: string, message: Option<HandlerError>)

  datatype Response = Response(body: Body, code: int)

  /** `verify_webhook`: echo the challenge only to a subscribe request carrying the right token. */
  function VerifyWebhook(query: VerifyQuery, webhookToken: string): (r: Response)
    ensures r.code == 200 <==> query.mode == Some("subscribe") && query.verifyToken == Some(webhookToken)
    ensures r.code == 200 ==> r.body == PlainText(query.challenge)
    ensures r.code != 200 ==> r == Response(PlainText(Some("Verification failed")), 403)
    ensures query.mode.None? || query.verifyToken.None? ==> r.code == 403
  {
    if query.mode == Some("subscribe") && query.verifyToken == Some(webhookToken) then
      Response(PlainText(query.challenge), 200)
    else
      Response(PlainText(Some("Verification failed")), 403)
  }

  /** With WEBHOOK_TOKEN unset, exactly the token "bartim123" passes the handshake. */
  lemma DefaultTokenVerifies(query: VerifyQuery)
    requires query.mode == Some("subscribe") && query.verifyToken.Some?
    ensures VerifyWebhook(query, WebhookToken(None)).code == 200 <==> query.verifyToken.value == "bartim123"
  {
  }

  /** What a call to the completion API comes to: the reply's content, or any exception. */
  datatype LlmOutcome = Completion(content: string) | Failure

  /** The result of `query_deepseek`: it never raises, a failure turns into the apology. */
  function DeepSeekReply(outcome: LlmOutcome): (reply: string)
    ensures outcome.Completion? ==> reply == outcome.content
    ensures outcome.Failure? ==> reply == Apology
  {
    match outcome
    case Completion(content) => content
    case Failure => Apology
  }

  /** The prompt for a message the knowledge base cannot answer: the fixed prefix, then the message verbatim. */
  function LlmPrompt(userMsg: string): (prompt: string)
    ensures |prompt| == |PromptPrefix| + |userMsg|
    ensures PromptPrefix <= prompt && prompt[|PromptPrefix|..] == userMsg
  {
    PromptPrefix + userMsg
  }

  /** The `text` object of an outbound payload. */
  datatype TextBody = TextBody(body: string)

  /** The JSON payload posted to the messaging API. */
  datatype Payload = Payload(messagingProduct: string, to: string, text: TextBody)

  /** The payload of `send_whatsapp_message(phone_number, message)`. */
  function BuildPayload(phoneNumber: string, message: string): (p: Payload)
    ensures p.messagingProduct == "whatsapp" && p.to == phoneNumber && p.text.body == message
  {
    Payload("whatsapp", phoneNumber, TextBody(message))
  }

  /** Python truthiness of the router's result: a non-empty string. */
  predicate Truthy(found: Option<string>) {
    found.Some? && found.value != ""
  }

  /** The `if not response` test asks the completion API exactly when the router returned None. */
  lemma AskLlmIffNoAnswer(kb: Table, userMsg: string)
    requires Shaped(kb) && Route(kb, userMsg).Returned?
    ensures !Truthy(Route(kb, userMsg).value) <==> Route(kb, userMsg).value.None?
  {
    if Route(kb, userMsg).value.Some? {
      AnswersAreFormattedRecords(kb, userMsg, Route(kb, userMsg).value.value);
    }
  }

  /** The reply the handler sends: the router's answer when it is truthy, otherwise the completion API's. */
  function SelectReply(found: Option<string>, userMsg: string, llm: string -> LlmOutcome): (reply: string)
    ensures Truthy(found) ==> reply == found.value
    ensures !Truthy(found) ==> reply == DeepSeekReply(llm(LlmPrompt(userMsg)))
  {
    if Truthy(found) then found.value else DeepSeekReply(llm(LlmPrompt(userMsg)))
  }

  /**
   * Over KNOWLEDGE_BASE's layout the truthiness test is a None test: a found
   * answer goes out verbatim, and only a None sends the question to the LLM.
   */
  lemma ReplyForRoute(kb: Table, userMsg: string, llm: string -> LlmOutcome)
    requires Shaped(kb) && Route(kb, userMsg).Returned?
    ensures Route(kb, userMsg).value.Some? ==> SelectReply(Route(kb, userMsg).value, userMsg, llm) == Route(kb, userMsg).value.value
    ensures Route(kb, userMsg).value.None? ==> SelectReply(Route(kb, userMsg).value, userMsg, llm) == DeepSeekReply(llm(LlmPrompt(userMsg)))
  {
    AskLlmIffNoAnswer(kb, userMsg);
  }

  /** A POST body after field extraction: the sender and text, or a body the extraction raised on. */
  datatype Inbound = Message(phoneNumber: string, userMsg: string) | Malformed

  /** A request to `/webhook`. */
  datatype Request = Get(query: VerifyQuery) | Post(inbound: Inbound)

  /** The running server: its configuration, and what it has sent to the two outside services. */
  class Server {
    /** KNOWLEDGE_BASE. */
    const knowledge: Table
    /** WEBHOOK_TOKEN. */
    const webhookToken: string
    /** Every prompt sent to the completion API, in order. */
    var prompts: seq<string>
    /** Every payload posted to the messaging API, in order. */
    var outbox: seq<Payload>

    /** Start-up, with the value of WEBHOOK_TOKEN if it is set. */
    constructor (env: Option<string>)
      ensures knowledge == KnowledgeBase && Shaped(knowledge)
      ensures webhookToken == WebhookToken(env)
      ensures prompts == [] && outbox == []
    {
      KnowledgeBaseShaped();
      knowledge := KnowledgeBase;
      webhookToken := WebhookToken(env);
      prompts, outbox := [], [];
    }

    /** `query_deepseek(prompt)`: one call to the completion API, which never raises. */
    method QueryDeepSeek(prompt: string, llm: string -> LlmOutcome) returns (reply: string)
      modifies this
      ensures prompts == old(prompts) + [prompt] && outbox == old(outbox)
      ensures reply == DeepSeekReply(llm(prompt))
    {
      prompts := prompts + [prompt];
      reply := DeepSeekReply(llm(prompt));
    }

    /** `send_whatsapp_message(phone_number, message)`: one post to the messaging API, which never raises. */
    method SendWhatsAppMessage(phoneNumber: string, message: string)
      modifies this
      ensures outbox == old(outbox) + [BuildPayload(phoneNumber, message)] && prompts == old(prompts)
    {
      outbox := outbox + [BuildPayload(phoneNumber, message)];
    }

    /** `webhook()`: the handshake on GET; on POST, answer the message and send the reply. */
    method Webhook(request: Request, llm: string -> LlmOutcome) returns (response: Response)
      modifies this
      ensures request.Get? ==>
        response == VerifyWebhook(request.query, webhookToken) && prompts == old(prompts) && outbox == old(outbox)
      ensures request.Post? && request.inbound.Malformed? ==>
        response == Response(Json("error", Some(ExtractionFailed)), 500) &&
        prompts == old(prompts) && outbox == old(outbox)
      ensures request.Post? && request.inbound.Message? ==>
        var phone, msg := request.inbound.phoneNumber, request.inbound.userMsg;
        match Route(knowledge, msg)
        case Raised(e) =>
          response == Response(Json("error", Some(LookupFailed(e))), 500) &&
          prompts == old(prompts) && outbox == old(outbox)
        case Returned(found) =>
          response == Response(Json("success", None), 200) &&
          prompts == old(prompts) + (if Truthy(found) then [] else [LlmPrompt(msg)]) &&
          outbox == old(outbox) + [BuildPayload(phone, SelectReply(found, msg, llm))]
    {
      match request
      case Get(query) =>
        return VerifyWebhook(query, webhookToken);
      case Post(Malformed) =>
        return Response(Json("error", Some(ExtractionFailed)), 500);
      case Post(Message(phoneNumber, userMsg)) =>
        var found := CariJawaban(knowledge, userMsg);
        if found.Raised? {
          return Response(Json("error", Some(LookupFailed(found.error))), 500);
        }
        var reply: string;
        if !Truthy(found.value) {
          reply := QueryDeepSeek(LlmPrompt(userMsg), llm);
        } else {
          reply := found.value.value;
        }
        SendWhatsAppMessage(phoneNumber, reply);
        return Response(Json("success", None), 200);
    }
  }

  /** A POST the knowledge base can answer: that answer goes out unchanged and the LLM is not asked. */
  method AnswerKnownQuestion(server: Server, phoneNumber: string, userMsg: string, llm: string -> LlmOutcome)
    returns (response: Response)
    requires Shaped(server.knowledge)
    requires Route(server.knowledge, userMsg).Returned? && Route(server.knowledge, userMsg).value.Some?
    modifies server
    ensures response == Response(Json("success", None), 200)
    ensures server.prompts == old(server.prompts)
    ensures server.outbox == old(server.outbox) + [BuildPayload(phoneNumber, Route(server.knowledge, userMsg).value.value)]
  {
    ReplyForRoute(server.knowledge, userMsg, llm);
    response := server.Webhook(Post(Message(phoneNumber, userMsg)), llm);
  }
}
