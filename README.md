# fb-bot: a verified model of the webhook chat bot

This project models the core of a small chat bot for a messaging platform
(main.go). The bot answers the platform's subscription handshake. It takes in
callbacks of message and postback events. It matches message text against a
fixed keyword table and answers through the platform's send API. While doing
so it keeps four process-wide globals:

- `counter`: the rotation counter;
- `owner`: the first user who sent `_INIT`;
- `imageIDs`: the attachment ids of the uploaded images;
- `me`: the bot's own page id, learnt from the first event.

The model has six modules:

- `Messenger` holds the data: callbacks, entries and events with an optional
  message and an optional postback, the outbound message kinds (text, image by
  URL, gopher media template by attachment id), and HTTP responses.
- `Keywords` models `contains`. The `Contains` method is the loop with its
  early return, proved against a substring predicate on the lower-cased text.
- `Verification` models the handshake decision of `VerificationHandler`.
- `Dispatch` describes the handlers on values. A `State` holds the four
  globals plus the outbox, which is every send made so far, in order. The
  functions `Gopher`, `OnMessage`, `OnEvent`, `OnEvents` and `OnCallback`
  give the state after `sendGopher`, `ProcessMessage`, one turn of the event
  loop, a run of events and `CallbackHandler`.
- `Server.Bot` is the program itself. The globals are fields, `SendMessage`
  appends to the `outbox` field, and the methods keep the source's loops and
  early returns. Each method is proved to compute its `Dispatch` function.
- `DispatchProofs` proves the properties below about the `Dispatch`
  functions.

The outcome of a send belongs to the platform. It is the parameter
`vendor: nat -> SendResult`: the platform's answer, `Success(attachmentId)`
or `Failure`, to the k-th send of the process. Each send reads the answer at
the current outbox length. Only the answers to the image uploads are used.

`sendGopher` indexes `imageIDs[counter]`. The callers never check that this
index is in range, so an out-of-range index is modelled as a Go panic, not as
a precondition. The intro text has already been sent when the panic happens.
The counter does not move. The remaining events of the callback are
abandoned. The HTTP server recovers the panic and drops the connection
without a response, shown as `Response.Dropped`. Globals changed before the
panic stay changed. Lemmas show two ways this panic happens:

- Some image uploads failed, so there are fewer than four ids, but the
  counter still wraps modulo the four images (`ShortListOverruns`).
- A `_GOPHER` postback arrives before initialisation. Unlike the go keyword,
  the postback does not check for an owner (`UninitializedGopher`).

The owner is taken from the sender id of the `_INIT` event, and that id may
be empty. An empty owner counts as "not set", so a later `_INIT` uploads the
images again. The bound of four ids therefore holds only while sender ids are
non-empty (`OnEventsBounded`). `EmptySenderReinitializes` shows a state with
eight ids.

Three behaviours of the code are easy to misread; the model follows the code:

- `_INIT` is compared exactly with the raw text. Only the keyword families
  are matched against the lower-cased text.
- The not-initialised text is also sent when there is an owner and no
  keyword matched, because it is the final `else` branch.
- `me` is assigned whenever it is still empty. An event with an empty
  recipient id leaves it empty, and a later event sets it.

## Model

| member | source | states |
|---|---|---|
| `Keywords.Contains` | main.go:124-132 | returns true exactly when some keyword occurs as a substring of the lower-cased text; the loop stops at the first hit |
| `Keywords.Lower` | main.go:125 | the lower-cased text has the same length, and each character is lower-cased: no A to Z letter remains, and every other character is kept |
| `Messenger.Event.IsMessage` | main.go:58-60 | an event is a message exactly when its message part is present, whatever its postback part |
| `Messenger.Event.IsPostback` | main.go:62-64 | an event is a postback exactly when its postback part is present, whatever its message part |
| `Keywords.UpperKeywordNeverMatches` | main.go:124-128 | the keywords are not lower-cased: a keyword containing an upper-case letter never matches, whatever the text |
| `Keywords.GoFamilyIsGo` | main.go:218 | the test for "gopher", "go" or "golang" holds exactly when the lower-cased text contains "go" |
| `Keywords.SurroundingTextIrrelevant` | main.go:125-127 | matching is by substring, not by word: text that matches still matches with any text added before and after it |
| `Verification.VerificationHandler` | main.go:75-90 | 200 with the challenge verbatim exactly when the mode is non-empty and the token equals the expected secret; otherwise 404 "Error, wrong validation token" |
| `Verification.SubscribeAccepted` | main.go:81-84 | a subscribe request with the right secret is answered with its challenge |
| `Verification.WrongTokenRefused` | main.go:81-89 | any other token gets the 404 reply, whatever the mode |
| `Verification.CaseMattersForTheToken` | main.go:81 | the token comparison is exact: "Secret" is refused for the secret "secret" |
| `Dispatch.Gopher` | main.go:155-187 | panics exactly when the counter is not below the number of ids; the outbox gains the intro text and then, unless it panicked, the template with the id at the counter; owner, ids and `me` are unchanged; the counter is below 4 afterwards or, on a panic, unchanged |
| `Dispatch.Upload` | main.go:197-212 | one turn of the upload loop sends the image to the owner and appends the platform's attachment id when the send succeeded, nothing when it failed; counter, owner and `me` are unchanged |
| `Dispatch.UploadAll` | main.go:196-213 | the loop sends one message per image, keeps the earlier outbox and ids as prefixes, adds at most one id per image, and changes neither counter, owner nor `me` |
| `Dispatch.Join` | main.go:214-216 | the ids printed as `%v` prints a `[]string`: their total length plus one separator between each pair |
| `Dispatch.Summary` | main.go:214-216 | the summary text is the fixed prefix, then `[`, then exactly `Join(ids)`, then `]` |
| `DispatchProofs.JoinLayout` | main.go:215 | `%v` of the id list prints the ids left to right one space apart: no ids give the empty text, one id itself, and a first id is followed by a space and the rest |
| `Dispatch.Classify` | main.go:190-232 | the `_INIT` branch is taken exactly for the text `_INIT`; the three keyword branches need an owner; without an owner every other text gets the not-initialised reply |
| `Dispatch.OnMessage` | main.go:189-233 | a message never changes `me`, only appends to the outbox and the ids, sets the owner only on `_INIT` without one, and panics only in the gopher branch with the counter past the ids |
| `Dispatch.LearnMe` | main.go:246-248 | only `me` can change; a known `me` stays, an empty one becomes the event's recipient |
| `Dispatch.OnEvent` | main.go:245-259 | one turn of the event loop: `me` is learnt first, the outbox only grows, and an event that fails the echo guard changes nothing beyond learning `me` and cannot panic |
| `Dispatch.OnEvents` | main.go:243-261 | a run of events only appends to the outbox and keeps a known `me` |
| `Dispatch.AllEvents` | main.go:243-244 | the flattened events are exactly the events of the entries |
| `Dispatch.OnCallback` | main.go:242-267 | 404 "CALLBACK_ERROR" exactly for a callback whose object is not "page", with nothing changed; otherwise 200 "EVENT_RECEIVED" or dropped; the outbox only grows |
| `Server.Bot.constructor` | main.go:142-153 | a fresh process: counter 0, empty owner, no ids, empty `me`, nothing sent |
| `Server.Bot.SendMessage` | main.go:92-122 | appends exactly one (recipient, message) record to the outbox, changes no global, and returns the platform's answer to that send |
| `Server.Bot.SendGopher` | main.go:155-187 | sends an intro text and then the template with `imageIDs[counter]`, and sets the counter to (counter + 1) mod 4; if the index is out of range it panics after the intro text with the counter unchanged |
| `Server.Bot.ProcessMessage` | main.go:189-233 | the new globals, outbox and panic flag are those of `Dispatch.OnMessage`, including the upload loop that skips failed sends |
| `Server.Bot.CallbackHandler` | main.go:242-267 | processes the events of all entries in order with the me-learning and echo guard, and gives the state and response of `Dispatch.OnCallback` (200, 404, or dropped on a panic) |
| `DispatchProofs.OnEventsAppend` | main.go:243-261 | handling the events a + b is handling a and then, unless that panicked, b from the resulting state |
| `DispatchProofs.AllEventsAppend` | main.go:243-244 | the events of the entries a + b are those of a followed by those of b |
| `DispatchProofs.PanicAbandonsRest` | main.go:243-261 | a panic in some event of some entry ends the whole callback in the state of that panic |
| `DispatchProofs.ClassifyFirstMatch` | main.go:190-232 | first match wins in the order exact `_INIT`, "go" in the lower-cased text, "python", "java"; the three keyword branches need an owner; the not-initialised reply happens exactly when the text is not `_INIT` and either there is no owner or no keyword matched |
| `DispatchProofs.UploadedCount` | main.go:196-213 | the upload loop keeps at most one id per image, and exactly one per image exactly when every upload succeeded |
| `DispatchProofs.UploadAllEffect` | main.go:196-213 | the upload loop sends every image to the owner in list order whatever the answers, and appends exactly the ids of the successful sends, in order |
| `DispatchProofs.InitMessage` | main.go:190-216 | with an owner, `_INIT` sends nothing and changes nothing; without one, the sender becomes the owner, the four images are sent in order, the successful ids are appended, and exactly one summary text follows |
| `DispatchProofs.GopherPostbacks` | main.go:246-258 | once `me` is known, a run of `_GOPHER` postbacks without a message, all from one user other than the bot, is that many successive gopher replies to that user |
| `DispatchProofs.GopherRotation` | main.go:155-187 | with an id for every image, n gopher replies never panic; each sends the intro text and a template, the counter ends after n steps of the rotation, and nothing else changes |
| `DispatchProofs.RotateIsMod` | main.go:186 | n steps of the rotation, each adding one modulo the image count, take the counter from c to (c + n) mod 4 |
| `DispatchProofs.RotationSendsAt` | main.go:168-186 | reply k of such a run sends the intro text and then the template with the id at index (c + k) mod 4 |
| `DispatchProofs.SixRepliesCycle` | main.go:186 | six replies from counter 0 use the ids at 0, 1, 2, 3, 0, 1 |
| `DispatchProofs.ShortListOverruns` | main.go:168-186 | from counter 0 with fewer than four ids, the replies up to the last id succeed and the next one panics |
| `DispatchProofs.MessageWinsOverPostback` | main.go:251-254 | an event carrying both a message and a postback is handled as if it had no postback |
| `DispatchProofs.PostbackBypassesOwner` | main.go:254-258 | a `_GOPHER` postback from another user runs sendGopher, whether or not there is an owner |
| `DispatchProofs.UninitializedGopher` | main.go:218-258 | before initialisation a "gopher" message gets only the not-initialised text, but the `_GOPHER` postback sends the intro text and then panics |
| `DispatchProofs.SilentIff` | main.go:189-259 | an event sends nothing exactly when it is not dispatched, is `_INIT` with an owner present, or is a postback whose payload is not `_GOPHER`; such an event changes no global except learning `me` |
| `DispatchProofs.EchoSuppressed` | main.go:246-259 | an event whose sender is the bot's own id, including the id just learnt from this event, is not dispatched |
| `DispatchProofs.EchoesNeverSend` | main.go:250-259 | once `me` is known, any run of the bot's own echoes leaves the state unchanged and sends nothing |
| `DispatchProofs.OnEventFrame` | main.go:186-248 | one event sets `me` only while it is empty, and then to the recipient; it changes `owner` only from empty to the sender; it only appends to the ids and the outbox; it keeps the counter below 4 |
| `DispatchProofs.OnEventsFrame` | main.go:243-261 | over a run of events, a non-empty `me` or `owner` never changes, a changed one comes from some event of the run, the ids and the outbox only grow, and the counter stays below 4 |
| `DispatchProofs.OnCallbackRules` | main.go:242-267 | a non-"page" callback gets 404 "CALLBACK_ERROR" and changes nothing; a "page" callback answers 200 "EVENT_RECEIVED" or is dropped, and keeps the set-once and append-only rules |
| `DispatchProofs.ReadyNeverPanics` | main.go:168-186 | with an id for every image, no run of events panics, and this stays true afterwards |
| `DispatchProofs.ReadyCallbackAcknowledged` | main.go:242-263 | with an id for every image, every "page" callback is answered 200 "EVENT_RECEIVED", whatever the platform answers to the sends |
| `DispatchProofs.OnEventBounded` | main.go:191-213 | with a non-empty sender id, one event keeps the invariant: no ids without an owner, at most four ids, counter below 4 |
| `DispatchProofs.OnEventsBounded` | main.go:191-213 | while every sender id is non-empty, a run of events keeps the bot at four ids or fewer |
| `DispatchProofs.EmptySenderReinitializes` | main.go:191-213 | two `_INIT` messages from an empty sender id leave the owner empty and, with every upload answered, eight ids |

## Left out

- HTTP serving, routing and `main` (main.go:270-277): transport plumbing. The handlers take their inputs as values.
- JSON decoding of the callback, and the early return when decoding fails (main.go:236-240). The handler then writes nothing, so the HTTP server answers 200 with an empty body. Callbacks arrive already decoded, as `Messenger.Callback`.
- The network part of `SendMessage` (main.go:92-122): JSON encoding, the POST and the response decoding. If building the request fails, the request is nil and `req.Header.Add` (main.go:105) panics before the error check at main.go:106, so the `log.Fatal` there is never reached. A send is an outbox record, and its outcome comes from the `vendor` parameter.
- Environment variables: the expected handshake token is the `expected` parameter of `VerificationHandler`. The access token only builds the URL, so it is not modelled.
- Logging: it does not affect behaviour.
- The attachment payload maps (main.go:161-184, main.go:198-204) are reduced to the value that varies, an image URL or an attachment id. The constant `is_reusable`, buttons and template type are not modelled. The inbound attachments of a message, the postback referral and the response's recipient and message ids are never consulted.
- Concurrent requests racing on the globals: the model handles one callback at a time.
- Keywords.Lower: maps only the letters A to Z to lower case and keeps every other character, where strings.ToLower also lower-cases non-ASCII capitals ("Ä" becomes "ä"). Text is lowered only to be searched for the all-lower-case ASCII keywords, so a non-ASCII character can only change a decision when it lowers to an ASCII letter; the next line shows that no such case reaches a keyword.
- Keywords.Contains: lower-cases only the letters A to Z, where strings.ToLower applies Unicode's simple case mapping, one character to one character. The only non-ASCII characters it maps to ASCII letters are U+212A (to "k") and U+0130 (to "i"). No keyword contains "k" or "i", so every keyword decision of the bot is unchanged. For other keywords, `contains` itself could differ.
- `counter` is a Go `int`. It is modelled as a natural number, which is exact because its value stays below 4.
- Strings are sequences of Unicode characters, where Go strings are byte strings. Callback strings are exact, because the JSON decoder replaces invalid UTF-8. The handshake's query parameters (main.go:76-78) can decode to bytes that are not valid UTF-8, which the model cannot represent.
