/** `generate_reply` (app.py:65-90): build the message list, send it to the
    backend the configuration selects, and turn the answer into a reply. */
module Orchestrator {
  import opened Wrappers
  import opened PyText
  import opened Settings
  import opened Conversation
  import opened Backends

  /** The history turns as messages, one per turn, in order, role and content preserved. */
  function TurnMessages(history: seq<ChatTurn>): (m: seq<Message>)
    ensures |m| == |history|
    ensures forall k :: 0 <= k < |m| ==> m[k] == Message(history[k].role, history[k].content)
  {
    if history == [] then []
    else
      var t := history[|history| - 1];
      TurnMessages(history[..|history| - 1]) + [Message(t.role, t.content)]
  }

  /** The message list `generate_reply` sends (app.py:66-69): the system
      instruction first, then every history turn in order, then the new user
      message last. */
  function OutboundMessages(c: Config, history: seq<ChatTurn>, userMessage: string): (m: seq<Message>)
    ensures |m| == |history| + 2
    ensures m[0] == Message("system", SystemPrompt(c))
    ensures forall k :: 1 <= k <= |history| ==> m[k] == Message(history[k - 1].role, history[k - 1].content)
    ensures m[|m| - 1] == Message("user", userMessage)
  {
    [Message("system", SystemPrompt(c))] + TurnMessages(history) + [Message("user", userMessage)]
  }

  /** The loop of app.py:66-69 that appends the messages one by one. */
  method BuildMessages(c: Config, history: seq<ChatTurn>, userMessage: string) returns (messages: seq<Message>)
    ensures messages == OutboundMessages(c, history, userMessage)
  {
    messages := [Message("system", SystemPrompt(c))];
    for i := 0 to |history|
      invariant messages == [Message("system", SystemPrompt(c))] + TurnMessages(history[..i])
    {
      assert history[..i + 1][..i] == history[..i];
      messages := messages + [Message(history[i].role, history[i].content)];
    }
    assert history[..|history|] == history;
    messages := messages + [Message("user", userMessage)];
  }

  /** One call of `generate_reply`: the request the selected backend was
      sent, and the reply, or the exception that escaped. */
  datatype Exchange = Exchange(request: BackendRequest, reply: Result<string, Fault>)

  /** What `generate_reply` does, given what each backend would answer: only
      the backend the configuration selects is asked, and its answer alone
      decides the reply (app.py:71-90). */
  function Respond(c: Config, history: seq<ChatTurn>, userMessage: string, hosted: HostedAnswer, local: LocalAnswer): (x: Exchange)
    ensures x.request.messages == OutboundMessages(c, history, userMessage)
    ensures x.request.HostedRequest? <==> SelectBackend(c) == HostedApi
    ensures x.request.HostedRequest? ==>
              x.request.model == c.openaiModel && x.request.maxTokens == MaxTokens && x.reply == HostedReply(hosted)
    ensures x.request.LocalRequest? ==>
              x.request.url == c.ollamaUrl && x.request.model == c.ollamaModel && !x.request.stream &&
              x.request.timeoutSeconds == TimeoutSeconds && x.reply == LocalReply(c, local)
    ensures x.reply.Ok? ==> x.reply.value != [] && IsStripped(x.reply.value)
  {
    var messages := OutboundMessages(c, history, userMessage);
    match SelectBackend(c)
    case HostedApi => Exchange(HostedRequest(c.openaiModel, messages, MaxTokens), HostedReply(hosted))
    case LocalServer => Exchange(LocalRequest(c.ollamaUrl, c.ollamaModel, messages, false, TimeoutSeconds), LocalReply(c, local))
  }

  /** `generate_reply` itself. */
  method GenerateReply(c: Config, history: seq<ChatTurn>, userMessage: string, hosted: HostedAnswer, local: LocalAnswer)
    returns (x: Exchange)
    ensures x == Respond(c, history, userMessage, hosted, local)
  {
    var messages := BuildMessages(c, history, userMessage);
    if SelectBackend(c) == HostedApi {
      x := Exchange(HostedRequest(c.openaiModel, messages, MaxTokens), HostedReply(hosted));
    } else {
      x := Exchange(LocalRequest(c.ollamaUrl, c.ollamaModel, messages, false, TimeoutSeconds), LocalReply(c, local));
    }
  }

  /** There is no fallback from one backend to the other: whatever the
      unselected backend would have answered, the exchange is the same. */
  lemma NoCrossBackendFallback(c: Config, history: seq<ChatTurn>, userMessage: string,
                               hosted: HostedAnswer, hosted': HostedAnswer, local: LocalAnswer, local': LocalAnswer)
    ensures SelectBackend(c) == HostedApi ==>
              Respond(c, history, userMessage, hosted, local) == Respond(c, history, userMessage, hosted, local')
    ensures SelectBackend(c) == LocalServer ==>
              Respond(c, history, userMessage, hosted, local) == Respond(c, history, userMessage, hosted', local)
  {
  }

  /** With the local backend, an unreachable server yields the canned
      apology, which names the escalation e-mail address. */
  lemma {:induction false} LocalNetworkFailureApologises(c: Config, history: seq<ChatTurn>, userMessage: string, hosted: HostedAnswer)
    requires SelectBackend(c) == LocalServer
    ensures Respond(c, history, userMessage, hosted, RequestFailed).reply == Ok(CannedApology(c))
    ensures Contains(CannedApology(c), c.supportEmail)
  {
  }

  /** With either backend, an answer of nothing but whitespace yields exactly
      the clarifying question. */
  lemma {:induction false} BlankAnswerAsksForDetails(c: Config, history: seq<ChatTurn>, userMessage: string, text: string)
    requires AllSpace(text)
    ensures SelectBackend(c) == HostedApi ==>
              Respond(c, history, userMessage, Completion(Some(text)), RequestFailed).reply == Ok(ClarifyingQuestion)
    ensures SelectBackend(c) == LocalServer ==>
              Respond(c, history, userMessage, HostedRaised, Decoded(MessageObject(Some(Str(text))))).reply == Ok(ClarifyingQuestion)
  {
    StripEmptyIff(text);
    assert HostedReply(Completion(Some(text))) == Ok(ClarifyingQuestion);
    assert PyStr(Str(text)) == text;
    assert LocalReply(c, Decoded(MessageObject(Some(Str(text))))) == Ok(ClarifyingQuestion);
  }
}
