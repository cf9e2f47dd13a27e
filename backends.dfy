/** The two backends a reply can come from: the request each one is sent,
    the answers it can give, and how `generate_reply` turns an answer into a
    reply (app.py:51-62, app.py:71-90). The network itself is not modelled:
    its answer is an input. */
module Backends {
  import opened Wrappers
  import opened PyText
  import opened Settings

  /** One element of the `messages` list sent to a backend (app.py:66-69). */
  datatype Message = Message(role: string, content: string)

  /** `max_tokens` of the hosted request (app.py:75). */
  const MaxTokens: nat := 220
  /** `timeout` of the local request, in seconds (app.py:57). */
  const TimeoutSeconds: nat := 30

  /** What a backend is sent. */
  datatype BackendRequest =
    | HostedRequest(model: string, messages: seq<Message>, maxTokens: nat)
    | LocalRequest(url: string, model: string, messages: seq<Message>, stream: bool, timeoutSeconds: nat)

  /** What `openai_client.chat.completions.create(...)` produces: it raises,
      or it returns a completion whose first choice has `content`, possibly `None`. */
  datatype HostedAnswer = HostedRaised | Completion(content: Option<string>)

  /** The `message` key of the decoded local-server body. */
  datatype MessageField =
    | NoMessage                                  // the key is missing
    | MessageObject(content: Option<Scalar>)     // an object, whose `content` key may be missing
    | MessageNotObject                           // anything else, `null` included

  /** What the HTTP exchange with the local server produces. */
  datatype LocalAnswer =
    | RequestFailed            // `requests.RequestException`: connection, timeout, error status, undecodable body
    | Decoded(message: MessageField)
    | BodyNotObject            // the body decodes to JSON that is not an object

  /** A Python exception raised inside `fetch_ollama_reply`. */
  datatype LocalFailure = RequestException | AttributeError

  /** An exception that escapes `generate_reply` instead of a reply: any
      exception of the hosted call (a client error, or the `IndexError` of a
      completion without choices), or the `AttributeError` of a local-server
      body that is not an object. */
  datatype Fault = HostedException | MalformedLocalBody

  /** `fetch_ollama_reply` after the HTTP exchange (app.py:58-62): a failed
      request raises `RequestException`; a body or `message` that is not an
      object raises `AttributeError` on `.get`; otherwise the result is
      `str(content).strip()`, with a missing `message` or `content` read as "". */
  function FetchOllamaReply(a: LocalAnswer): (r: Result<string, LocalFailure>)
    ensures r == Err(RequestException) <==> a == RequestFailed
    ensures r == Err(AttributeError) <==> a == BodyNotObject || a == Decoded(MessageNotObject)
    ensures r.Ok? ==> IsStripped(r.value)
    ensures a == Decoded(NoMessage) || a == Decoded(MessageObject(None)) ==> r == Ok("")
    ensures a.Decoded? && a.message.MessageObject? && a.message.content.Some? ==>
              r == Ok(Strip(PyStr(a.message.content.value)))
  {
    match a
    case RequestFailed => Err(RequestException)
    case BodyNotObject => Err(AttributeError)
    case Decoded(NoMessage) => Ok("")
    case Decoded(MessageNotObject) => Err(AttributeError)
    case Decoded(MessageObject(content)) =>
      FieldTextIsStrippedStr(content);
      Ok(FieldText(content))
  }

  /** The hosted path of `generate_reply` (app.py:71-80): a client exception
      propagates; otherwise the completion text, stripped, with a missing or
      blank text replaced by the clarifying question. */
  function HostedReply(a: HostedAnswer): (r: Result<string, Fault>)
    ensures r.Err? <==> a == HostedRaised
    ensures r.Err? ==> r.error == HostedException
    ensures r.Ok? ==> r.value != [] && IsStripped(r.value)
    ensures a.Completion? && (a.content == None || AllSpace(a.content.value)) ==> r == Ok(ClarifyingQuestion)
    ensures a.Completion? && a.content.Some? && !AllSpace(a.content.value) ==> r == Ok(Strip(a.content.value))
  {
    match a
    case HostedRaised => Err(HostedException)
    case Completion(content) =>
      var reply := Strip(content.GetOr(""));
      StripEmptyIff(content.GetOr(""));
      ClarifyingQuestionIsStripped();
      Ok(if reply == [] then ClarifyingQuestion else reply)
  }

  /** The local path of `generate_reply` (app.py:82-90): the stripped content,
      or the clarifying question when it is empty; a `RequestException` becomes
      the canned apology; an `AttributeError` is not caught and propagates. */
  function LocalReply(c: Config, a: LocalAnswer): (r: Result<string, Fault>)
    ensures r.Err? <==> a == BodyNotObject || a == Decoded(MessageNotObject)
    ensures r.Err? ==> r.error == MalformedLocalBody
    ensures r.Ok? ==> r.value != [] && IsStripped(r.value)
    ensures a == RequestFailed ==> r == Ok(CannedApology(c)) && Contains(r.value, c.supportEmail)
    ensures a == Decoded(NoMessage) || a == Decoded(MessageObject(None)) ==> r == Ok(ClarifyingQuestion)
    ensures a.Decoded? && a.message.MessageObject? && a.message.content.Some? ==>
              var text := Strip(PyStr(a.message.content.value));
              r == Ok(if text == [] then ClarifyingQuestion else text)
  {
    ClarifyingQuestionIsStripped();
    match FetchOllamaReply(a)
    case Ok(reply) => Ok(if reply == [] then ClarifyingQuestion else reply)
    case Err(RequestException) => Ok(CannedApology(c))
    case Err(AttributeError) => Err(MalformedLocalBody)
  }
}
