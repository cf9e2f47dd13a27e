# chatBotAI reply logic, in Dafny

This project models the decision logic of the chatBotAI customer-service
service (`app.py`): how a `POST /api/chat` request becomes a reply. The handler
refuses a blank message with a 400. It cleans the conversation history the
client sent. It then calls `generate_reply`, which:

- builds the message list (the system instruction, the history, the new
  message);
- sends it to exactly one backend, the hosted completion API or a local model
  server, chosen once from the configuration;
- turns that backend's answer into a reply. A blank answer becomes a
  clarifying question. An unreachable local server becomes a canned apology
  that names the escalation address.

The network is not modelled. What each backend would answer is an input value
(`Backends.HostedAnswer`, `Backends.LocalAnswer`). Every result records the
request that was sent, so the contracts can speak about it. The two loops of
the source are methods proved against pure specification functions:

- the history filter of the handler: `Conversation.NormalizeHistory` against
  `Conversation.KeptTurns`;
- the message-list construction of `generate_reply`:
  `Orchestrator.BuildMessages` against `Orchestrator.OutboundMessages`.

The prompt text and the reply decision are functions, and lemmas state their
properties.

Python's `str.strip()` is modelled over the full set of characters for which
`str.isspace()` holds (`PyText.IsSpace`). `str()` applied to a decoded JSON
scalar is modelled too (`PyText.PyStr`): `null` reads as `None`, booleans as
`True`/`False`, integers as decimal numerals. So a request whose `message` is
JSON `null` is answered, with the text "None", not refused
(`ChatRoute.NullMessageIsAnswered`).

Modules, in dependency order:

- `Wrappers`: Option and Result.
- `PyText`: `strip`, `str()` of scalars, substring containment.
- `Settings`: the configuration, the backend choice and the fixed texts.
- `Conversation`: history turns and the history filter.
- `Backends`: the backend requests, the answers and the per-backend replies.
- `Orchestrator`: `generate_reply`.
- `ChatRoute`: the `/api/chat` handler.

A local-server body that decodes to JSON but is not an object, or whose
`message` is not an object, raises `AttributeError` on `.get` (app.py:60-61).
`generate_reply` catches only `requests.RequestException` (app.py:85), so that
error escapes (`Backends.LocalAnswer.BodyNotObject`, `Fault.MalformedLocalBody`).
With requests 2.27 or later, a body that fails to decode raises
`requests.JSONDecodeError`, a `RequestException`, and gets the apology
(`LocalAnswer.RequestFailed`); the model assumes such a version. Any exception of the hosted call escapes
as `Fault.HostedException`.

The fixed texts are the source's literals, split where the source splits
them, except that the first line of the apology (app.py:87) is split once more
after its first sentence; the text is the same.

## Model

| member | source | states |
|---|---|---|
| PyText.IsSpaceIsPythonWhitespace | app.py:105 | the whitespace test `PyText.IsSpace` that `strip` uses holds for exactly the characters for which `str.isspace()` holds, listed one by one |
| PyText.Strip | app.py:105 | `s.strip()` is a slice of `s` that starts after the leading whitespace, has only whitespace after it, and begins and ends with a non-whitespace character (or is empty) |
| PyText.StripUnique | app.py:105 | any stripped slice of `s` with only whitespace before and after it is `Strip(s)`, so the contract of `Strip` determines its result |
| PyText.StripOfStripped | app.py:113-114 | a string with no whitespace at either end is left unchanged by `strip` |
| PyText.StripIdempotent | app.py:113-114 | stripping twice gives the same result as stripping once |
| PyText.StripEmptyIff | app.py:108 | `s.strip()` is empty exactly when every character of `s` is whitespace |
| PyText.ContainsMiddle | app.py:46 | a string spliced between two others occurs in the result as a substring |
| PyText.Decimal | app.py:105 | `str()` of a natural number is a non-empty string of decimal digits without a leading zero |
| PyText.DecimalRoundTrip | app.py:105 | reading back the numeral `str()` writes gives the same number |
| PyText.IntText | app.py:105 | `str()` of an integer is non-empty, starts with "-" exactly when the integer is negative, and after the sign is the decimal numeral `Decimal` of its magnitude |
| PyText.PyStr | app.py:105 | `str()` of a JSON scalar: "None" for null, "True"/"False" for a boolean, the signed numeral `IntText` for an integer, the string itself for a string |
| PyText.PyStrOfNonString | app.py:105 | `str()` of JSON null, a boolean or an integer is non-empty and has no whitespace for `strip` to remove |
| PyText.FieldText | app.py:105 | `str(d.get(key, "")).strip()`, worked out per kind of value: the result is always stripped |
| PyText.FieldTextIsStrippedStr | app.py:105 | the per-kind definition equals `strip` of `str()` of the value, a missing key being "" |
| PyText.FieldTextBlank | app.py:105-108 | a field reads as empty exactly when the key is missing or holds a string of whitespace only |
| Settings.SelectBackend | app.py:32 | the hosted backend is chosen exactly when the client library is importable and the API key is set to a non-empty string; otherwise the local server is used |
| Settings.ClarifyingQuestionIsStripped | app.py:79 | the clarifying question is non-empty and stripped |
| Settings.SystemPrompt | app.py:41-48 | the system instruction contains the escalation e-mail address and the phone number as substrings, and is non-empty and stripped |
| Settings.CannedApology | app.py:86-90 | the apology contains the escalation e-mail address as a substring, is non-empty and stripped, and differs from the clarifying question |
| Conversation.NormalizeTurn | app.py:113-116 | an entry is kept exactly when its trimmed role is "user" or "assistant" and its trimmed content is non-empty; the kept turn holds the trimmed role and content |
| Conversation.MissingFieldDropped | app.py:113-115 | an entry that lacks a role or lacks content is dropped |
| Conversation.BlankContentDropped | app.py:114-115 | an entry whose content is a string of whitespace only is dropped |
| Conversation.KeptTurns | app.py:111-116 | the cleaned history is no longer than the request's and holds only valid turns: a history role and non-empty, stripped content |
| Conversation.KeptTurnsAppend | app.py:111-116 | cleaning distributes over concatenation, so kept turns keep the relative order of their entries |
| Conversation.KeptTurnsMembership | app.py:111-116 | a turn is in the cleaned history exactly when some entry of the request normalises to it |
| Conversation.ValidTurnRoundTrip | app.py:113-116 | a valid turn, sent back as an entry, normalises to itself |
| Conversation.KeptTurnsOfValid | app.py:111-116 | a history of valid turns, sent back as entries, is cleaned to itself |
| Conversation.KeptTurnsIdempotent | app.py:111-116 | cleaning an already cleaned history changes nothing |
| Conversation.NormalizeHistory | app.py:111-116 | the filtering loop produces exactly the cleaned history `KeptTurns` |
| Backends.FetchOllamaReply | app.py:58-62 | a failed request raises `RequestException`; a body or `message` that is not an object raises `AttributeError`; a missing `message` or `content` gives ""; otherwise the result is `str(content).strip()` |
| Backends.HostedReply | app.py:71-80 | a client exception propagates; a missing or blank completion text gives exactly the clarifying question; otherwise the stripped text; every reply is non-empty and stripped |
| Backends.LocalReply | app.py:82-90 | a `RequestException` gives the canned apology, which contains the e-mail address; an `AttributeError` propagates; a missing field or blank content gives the clarifying question; otherwise the stripped content; every reply is non-empty |
| Orchestrator.TurnMessages | app.py:67-68 | one message per history turn, in order, with the turn's role and content |
| Orchestrator.OutboundMessages | app.py:66-69 | the message list has `|history| + 2` elements: the system instruction first, the history turns in order, the user message last |
| Orchestrator.BuildMessages | app.py:66-69 | the appending loop produces exactly `OutboundMessages` |
| Orchestrator.Respond | app.py:65-90 | the request carries the built message list; it goes to the hosted API exactly when that backend is selected, with the configured model and 220 tokens, and otherwise to the local server with its URL, model, no streaming and a 30 s timeout; the reply is that backend's reply, and every reply is non-empty and stripped |
| Orchestrator.GenerateReply | app.py:65-90 | `generate_reply` produces exactly the exchange `Respond` specifies |
| Orchestrator.NoCrossBackendFallback | app.py:71-90 | what the backend that is not selected would answer never changes the exchange |
| Orchestrator.LocalNetworkFailureApologises | app.py:85-90 | with the local backend, an unreachable server gives the canned apology naming the escalation address |
| Orchestrator.BlankAnswerAsksForDetails | app.py:78-84 | with either backend, an all-whitespace answer gives exactly "Could you share more details?" |
| ChatRoute.ChatOutcome | app.py:103-119 | no backend is asked exactly when the trimmed message is empty, and then the answer is the "Message is required." error with status 400; otherwise the request sent is the one `generate_reply` makes for the cleaned history and the trimmed message, and the answer is its reply with status 200 (non-empty and stripped), or the exception it raised, unhandled |
| ChatRoute.Chat | app.py:103-119 | the handler produces exactly `ChatOutcome` |
| ChatRoute.BlankMessageRejected | app.py:105-109 | the request is refused with 400, and no backend asked, exactly when `message` is missing or a string of whitespace only |
| ChatRoute.UncaughtFaults | app.py:71-90 | an unhandled exception comes from the hosted call when the hosted backend is selected, and from a local-server body that is not an object, or whose `message` is not an object, when the local server is |
| ChatRoute.SentHistoryComesFromRequest | app.py:111-118 | every history message the backend is sent has a history role and comes from an entry of the request |
| ChatRoute.PasswordResetScenario | app.py:103-119 | with the local backend, a question answered with "Go to Settings > Security." gives that reply with status 200 |
| ChatRoute.ConnectionRefusedScenario | app.py:85-90 | with the local backend and a refused connection, the reply is the canned apology naming support@example.com |
| ChatRoute.EmptyMessageScenario | app.py:105-109 | an empty message is refused with 400 and nothing is sent |
| ChatRoute.NullMessageIsAnswered | app.py:105 | a JSON `null` message is not refused: its text is "None", and that is sent as the user message |

## Left out

- Flask routing, `render_template`, `jsonify`, the `/` and `/health` routes and `app.run`: web-framework plumbing with no decision logic. An exception that escapes the handler, which Flask turns into a 500 response, is modelled as `ChatRoute.HttpResponse.Unhandled`.
- Reading the environment and `.env`, and the optional imports: `Settings.Config` is an immutable parameter holding their results, and `openaiLibrary` says whether `openai` imported.
- The HTTP POST, the JSON decoding, the OpenAI SDK call and the timeouts themselves: foreign I/O. Their outcome is an input (`HostedAnswer`, `LocalAnswer`). The 30 s timeout and the 220-token bound are recorded as request fields.
- `temperature=0.4`: a float with no behaviour in this code, so it is not part of the modelled request.
- Backends.HostedAnswer: a completion with no choices (an `IndexError` at `choices[0]`) is folded into `HostedRaised`, since it too escapes as an exception.
- A history entry that is not a JSON object, and a truthy payload that is not an object: `item.get` or `payload.get` raise on them, which is library behaviour outside the handler's logic. `Payload.history` is an array of objects or missing.
- A `history` that is not an array: an empty string or an empty object is iterated zero times and answered like an empty history; `null` or a number makes the `for` of app.py:112 raise `TypeError`; a non-empty string or object yields items `.get` fails on. The model has no such payload.
- JSON floats, arrays and objects as the value of `message`, `role` or `content`: only scalars (`null`, booleans, integers, strings) are modelled by `PyText.Scalar`, since `str()` of a float needs Python's shortest-repr float formatting.
- PyText.Decimal: does not model Python's limit of 4300 digits on integer conversion. On a Python that has it, a request holding a longer integer fails to decode, `get_json(silent=True)` gives `None`, the payload reads as `{}` and the request gets the 400 (app.py:104-109); the model instead answers it with the integer's numeral.
- PyText.Decimal: for the same reason, a local-server body whose `content` is an integer of more than 4300 digits makes `response.json()` raise a plain `ValueError`, which requests does not wrap and which escapes `generate_reply` (app.py:59, app.py:85); the model's `Decoded(MessageObject(Some(Int(n))))` answers it with the numeral instead.
- Before requests 2.27, a local-server body that fails to decode raises a plain `ValueError`, which escapes `generate_reply`; the model treats it as `RequestFailed`, the behaviour of later versions.
- The browser front end (`static/app.js`): UI code with no decision logic.
- Concurrency between requests: the only shared state is the read-only configuration.
