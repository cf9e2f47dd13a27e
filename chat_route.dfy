/** The decision logic of the `POST /api/chat` handler (app.py:102-119):
    reject a blank message, clean the history, and answer with the reply of
    `generate_reply`. Routing and JSON encoding are not modelled. */
module ChatRoute {
  import opened Wrappers
  import opened PyText
  import opened Settings
  import opened Conversation
  import opened Backends
  import opened Orchestrator

  /** The decoded request body. A body that is not JSON, or is falsy, reads
      as `{}` (app.py:104), which is `Payload(None, None)`. */
  datatype Payload = Payload(message: Option<Scalar>, history: Option<seq<RawTurn>>)

  /** The HTTP status codes the handler produces itself. */
  const BadRequest: nat := 400
  const Success: nat := 200

  const MessageRequired: string := "Message is required."

  /** What the handler answers: the error body, the reply body, or an
      exception from `generate_reply` that the handler does not catch. */
  datatype HttpResponse =
    | ErrorBody(error: string, status: nat)
    | ReplyBody(reply: string, status: nat)
    | Unhandled(fault: Fault)

  /** The answer, together with the request a backend was sent, if any. */
  datatype ChatResult = ChatResult(response: HttpResponse, sent: Option<BackendRequest>)

  /** What the handler does with a request, given what each backend would answer. */
  function ChatOutcome(c: Config, p: Payload, hosted: HostedAnswer, local: LocalAnswer): (r: ChatResult)
    ensures r.sent == None <==> FieldText(p.message) == []
    ensures r.sent == None ==> r.response == ErrorBody(MessageRequired, BadRequest)
    ensures r.sent.Some? ==>
              r.sent.value.messages == OutboundMessages(c, KeptTurns(p.history.GetOr([])), FieldText(p.message))
    ensures r.sent.Some? ==>
              var x := Respond(c, KeptTurns(p.history.GetOr([])), FieldText(p.message), hosted, local);
              r.sent == Some(x.request) &&
              r.response == (if x.reply.Ok? then ReplyBody(x.reply.value, Success) else Unhandled(x.reply.error))
    ensures r.response.ReplyBody? ==> r.response.status == Success && r.response.reply != [] && IsStripped(r.response.reply)
  {
    var message := FieldText(p.message);
    if message == [] then
      ChatResult(ErrorBody(MessageRequired, BadRequest), None)
    else
      var x := Respond(c, KeptTurns(p.history.GetOr([])), message, hosted, local);
      var response := match x.reply
        case Ok(reply) => ReplyBody(reply, Success)
        case Err(fault) => Unhandled(fault);
      ChatResult(response, Some(x.request))
  }

  /** The handler (app.py:103-119). */
  method Chat(c: Config, p: Payload, hosted: HostedAnswer, local: LocalAnswer) returns (r: ChatResult)
    ensures r == ChatOutcome(c, p, hosted, local)
  {
    var message := FieldText(p.message);
    if message == [] {
      return ChatResult(ErrorBody(MessageRequired, BadRequest), None);
    }
    var history := NormalizeHistory(p.history.GetOr([]));
    var x := GenerateReply(c, history, message, hosted, local);
    match x.reply {
      case Ok(reply) => r := ChatResult(ReplyBody(reply, Success), Some(x.request));
      case Err(fault) => r := ChatResult(Unhandled(fault), Some(x.request));
    }
  }

  /** A request is refused with 400 and no backend is asked exactly when its
      `message` is missing or a string of whitespace only. */
  lemma {:induction false} BlankMessageRejected(c: Config, p: Payload, hosted: HostedAnswer, local: LocalAnswer)
    ensures ChatOutcome(c, p, hosted, local).response == ErrorBody(MessageRequired, BadRequest) <==>
              p.message == None || (p.message.value.Str? && AllSpace(p.message.value.s))
    ensures ChatOutcome(c, p, hosted, local).response == ErrorBody(MessageRequired, BadRequest) ==>
              ChatOutcome(c, p, hosted, local).sent == None
  {
    FieldTextBlank(p.message);
  }

  /** A hosted-client exception is the only exception that escapes when the
      hosted backend is selected; the local path lets only a malformed body through. */
  lemma {:induction false} UncaughtFaults(c: Config, p: Payload, hosted: HostedAnswer, local: LocalAnswer)
    requires ChatOutcome(c, p, hosted, local).response.Unhandled?
    ensures SelectBackend(c) == HostedApi ==>
              hosted == HostedRaised && ChatOutcome(c, p, hosted, local).response.fault == HostedException
    ensures SelectBackend(c) == LocalServer ==>
              (local == BodyNotObject || local == Decoded(MessageNotObject)) &&
              ChatOutcome(c, p, hosted, local).response.fault == MalformedLocalBody
  {
  }

  /** The history a backend is sent holds exactly the kept turns: each comes
      from some entry of the request, in the order of the entries. */
  lemma {:induction false} SentHistoryComesFromRequest(c: Config, p: Payload, hosted: HostedAnswer, local: LocalAnswer, k: nat)
    requires ChatOutcome(c, p, hosted, local).sent.Some?
    requires 1 <= k < |ChatOutcome(c, p, hosted, local).sent.value.messages| - 1
    ensures var m := ChatOutcome(c, p, hosted, local).sent.value.messages[k];
            ComesFrom(p.history.GetOr([]), ChatTurn(m.role, m.content)) && IsHistoryRole(m.role)
  {
    var turns := KeptTurns(p.history.GetOr([]));
    KeptTurnsMembership(p.history.GetOr([]), turns[k - 1]);
  }

  // Scenarios

  /** With the local backend, an empty history and a question whose answer
      comes back as `{"message": {"content": "Go to Settings > Security."}}`,
      the reply is that answer. */
  lemma PasswordResetScenario(c: Config)
    requires SelectBackend(c) == LocalServer
    ensures ChatOutcome(c, Payload(Some(Str("How do I reset my password?")), Some([])), HostedRaised,
                        Decoded(MessageObject(Some(Str("Go to Settings > Security.")))))
              .response == ReplyBody("Go to Settings > Security.", Success)
  {
    var question, answer := "How do I reset my password?", "Go to Settings > Security.";
    assert IsStripped(question) && IsStripped(answer);
    StripOfStripped(question);
    StripOfStripped(answer);
    assert FieldText(Some(Str(question))) == question;
    assert FieldText(Some(Str(answer))) == answer;
    assert LocalReply(c, Decoded(MessageObject(Some(Str(answer))))) == Ok(answer);
  }

  /** With the local backend, a server that refuses the connection yields
      the canned apology, naming the configured escalation address. */
  lemma ConnectionRefusedScenario(c: Config, hosted: HostedAnswer)
    requires SelectBackend(c) == LocalServer && c.supportEmail == "support@example.com"
    ensures var r := ChatOutcome(c, Payload(Some(Str("help")), Some([])), hosted, RequestFailed).response;
            r == ReplyBody(CannedApology(c), Success) && Contains(r.reply, "support@example.com")
  {
    var p := Payload(Some(Str("help")), Some([]));
    assert IsStripped("help");
    StripOfStripped("help");
    assert FieldText(p.message) == "help";
    LocalNetworkFailureApologises(c, KeptTurns([]), "help", hosted);
  }

  /** An empty `message` is refused before any backend is asked. */
  lemma EmptyMessageScenario(c: Config, hosted: HostedAnswer, local: LocalAnswer)
    ensures ChatOutcome(c, Payload(Some(Str("")), Some([])), hosted, local) == ChatResult(ErrorBody(MessageRequired, BadRequest), None)
  {
    StripOfStripped("");
  }

  /** A JSON `null` message is read as the text "None" and answered, not refused. */
  lemma NullMessageIsAnswered(c: Config, p: Payload, hosted: HostedAnswer, local: LocalAnswer)
    requires p.message == Some(Null)
    ensures ChatOutcome(c, p, hosted, local).sent.Some?
    ensures var m := ChatOutcome(c, p, hosted, local).sent.value.messages; m[|m| - 1] == Message("user", "None")
  {
  }
}
