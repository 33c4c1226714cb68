# Michi financial-coach app: client core in Dafny

This project models the sequential logic inside the Michi iOS app, a personal-finance
coach with an AI chat. It covers the API client, the chat conversation state, a few
string and collection utilities, and the model tables. It also covers the older template
client and email check that remain in the repository.

- **API client** (`NetworkManager`, from `Services/NetworkManager.swift`).
  - Endpoints resolve against a base origin.
  - A bearer token is required for authorised calls. The `Authorization: Bearer <token>`
    header is defined in section 2.1 of RFC 6750.
  - Failures are checked in a fixed order: URL, then authorisation, then body encoding,
    then transport, then status, then decoding.
  - Statuses are classified as 2xx success (section 15.3 of RFC 9110), 401 (section
    15.5.2), or anything else. A best-effort error message is read from the error body.
  - Chat streaming uses an event-stream line filter. Only lines that start with `data: `
    count, and the payload `[DONE]` ends the stream. This is a narrow subset of section
    9.2 of the WHATWG HTML Living Standard.
  - Each pipeline method builds an `Http.URLRequest` object and mutates it step by step,
    as the Swift code does with `var request`. It returns the request value handed to
    the session and the outcome.
- **Chat state** (`ChatViewModel`, from `ViewModels/ChatViewModel.swift`). A class holds
  the message list, the loading flag, the tone, the last error and the id of the message
  being streamed.
  - `SendMessage` appends the user message and a streaming placeholder. It rewrites the
    placeholder chunk by chunk in a loop, then either finalises it or swaps it for an
    apology message.
  - Clearing and loading the history have their fallbacks. The Codable sender mapping
    is modelled as a pair of functions.
- **Utilities** (`Extensions`, from `Utilities/Extensions.swift`): `truncated(to:trailing:)`,
  `isValidEmail` and `groupedByCategory`.
  - The email pattern is a value of the small regular-expression language in `Pattern`:
    character classes with repetition counts, matched against the whole string.
- **Models** (`Models`, from `Models/Models.swift`):
  - the tone and goal-category tables;
  - the chat message initialiser;
  - the zero-guarded percentages of budgets and goals. `Double` is `real`.
- **Legacy client** (`LegacyNetworkManager`, from `NetworkManager.swift`) and **legacy
  email check** (`LegacyExtensions`, from `Extensions.swift`).

Everything the Swift code gets from outside is an input. That covers:

- the Keychain token, as an `Option<string>`;
- `URL(string:)` and `JSONSerialization.jsonObject`, as functions in `NetworkManager.Client`;
- body encoding, as a `Result`;
- the session's reply, as an `Http.Exchange` of a response;
- the decoder, as a function `Body -> Result<T, string>`;
- the streamed body, as its lines plus an optional read error;
- fresh UUIDs and `Date()` readings.

`ChatViewModel.ChatViewModel.SendMessage` consumes the `NetworkManager.StreamResult` that
the streaming call delivers. That is the yielded chunks, then `Finished` or
`FailedWith(error)`.

## Model

| member | source | states |
|---|---|---|
| NetworkManager.ErrorDescription | Services/NetworkManager.swift:19-34 | a server error is described by the server's message when there is one, else by the status-code text; a decoding error's text starts with the fixed prefix |
| NetworkManager.ResolvedText | Services/NetworkManager.swift:227-232 | an endpoint beginning with "http" is taken as is; every other endpoint is appended to the base origin |
| NetworkManager.BuildURL | Services/NetworkManager.swift:227-232 | the URL parser sees the endpoint alone when it begins with "http", and base origin + endpoint otherwise |
| NetworkManager.ResolveIdempotent | Services/NetworkManager.swift:227-232 | with an absolute base origin, resolving a resolved endpoint again changes nothing |
| NetworkManager.ResolvedEndsWithEndpoint | Services/NetworkManager.swift:227-232 | the endpoint is always the tail of the resolved text |
| NetworkManager.BearerValue | Services/NetworkManager.swift:236 | the header value is exactly "Bearer " followed by the token |
| NetworkManager.AuthHeaders | Services/NetworkManager.swift:234-240 | an Authorization header is present iff authorisation is required and a token is stored, and its value is the bearer value; no other header is added |
| NetworkManager.AddAuthHeaders | Services/NetworkManager.swift:234-240 | with a token the request gains the bearer header and nothing else changes; without one `unauthorized` is reported and the request is untouched |
| NetworkManager.ErrorMessage | Services/NetworkManager.swift:253-254 | the message is the body's "message" string if any, else its "error" string, else none, and it is none exactly when neither is a string |
| NetworkManager.ValidateResponse | Services/NetworkManager.swift:242-256 | non-HTTP gives `noData`; it passes iff the status is 2xx; 401 gives `unauthorized`; any other status gives `serverError(status, ErrorMessage(body))` |
| NetworkManager.Receive | Services/NetworkManager.swift:77-85 | transport errors pass through, then validation errors; it succeeds iff the response is HTTP 2xx and decoding succeeds, with the decoded value; a decode failure after a passing status is `decodingError`, never a default |
| NetworkManager.PreflightError | Services/NetworkManager.swift:66-75 | an unresolvable URL gives `invalidURL` before the token is looked at; otherwise the missing token gives `unauthorized` |
| NetworkManager.Fetch | Services/NetworkManager.swift:62-86 | a request is sent iff the URL resolves and any required token is present; it is a GET with only the auth header; otherwise the pre-flight error; once sent the result is Receive |
| NetworkManager.SendJSON | Services/NetworkManager.swift:89-117 | the shared JSON pipeline: URL, then auth, then encoding are checked in that order; the sent request has the JSON content type, the auth header and the encoded body |
| NetworkManager.Post | Services/NetworkManager.swift:89-117 | as SendJSON with method POST; the body is never encoded when the URL or the token fails |
| NetworkManager.Put | Services/NetworkManager.swift:120-148 | as SendJSON with method PUT |
| NetworkManager.Delete | Services/NetworkManager.swift:151-169 | a DELETE with no content type; it succeeds iff the request is sent and the response is HTTP 2xx, and nothing is decoded |
| NetworkManager.Events | Services/NetworkManager.swift:207-216 | the stream ended on `[DONE]` iff some line is a `data: [DONE]` line; no yielded payload is `[DONE]`, and each one is the text after "data: " of some line |
| NetworkManager.FirstDone | Services/NetworkManager.swift:210-213 | the index of the first `[DONE]` line, or the line count when there is none |
| NetworkManager.EventsAreDataBeforeDone | Services/NetworkManager.swift:207-216 | the yielded payloads are those of the data lines before the first `[DONE]` line, in order |
| NetworkManager.EventsStopAtDone | Services/NetworkManager.swift:210-213 | lines after a `[DONE]` line have no effect |
| NetworkManager.StreamExample | Services/NetworkManager.swift:207-216 | two data lines, an ignored line and `[DONE]` yield "A", "B" and a normal end |
| NetworkManager.StreamOutcome | Services/NetworkManager.swift:197-220 | after sending: a transport error or a non-HTTP response ends the stream at once; any non-2xx status, 401 included, gives `serverError(status, nil)` before any line is read; otherwise the filtered payloads, then a normal end unless the reader failed before `[DONE]` |
| NetworkManager.Stream | Services/NetworkManager.swift:172-224 | the request is a POST with JSON content type, `Accept: text/event-stream`, the auth header and a 120-second timeout; pre-flight and encoding failures end the stream without sending |
| NetworkManager.ReadLines | Services/NetworkManager.swift:207-218 | the line loop yields exactly the filter's payloads and stops at the first `[DONE]` |
| ChatViewModel.SenderString | ViewModels/ChatViewModel.swift:195 | the sender string is "user" exactly for the user and "assistant" for the AI |
| ChatViewModel.SenderFromString | ViewModels/ChatViewModel.swift:185-186 | only "user" decodes to the user; every other string decodes to the AI |
| ChatViewModel.SenderRoundTrip | ViewModels/ChatViewModel.swift:181-196 | a sender survives encoding then decoding; "user" and "assistant" survive decoding then encoding |
| ChatViewModel.Encode | ViewModels/ChatViewModel.swift:191-197 | id, content and timestamp are written unchanged, and the sender as "user" or "assistant" |
| ChatViewModel.Decode | ViewModels/ChatViewModel.swift:181-189 | id, content and timestamp are read unchanged; the sender is the user iff the string is "user"; a decoded message is never streaming |
| ChatViewModel.CodableRoundTrip | ViewModels/ChatViewModel.swift:181-197 | decode(encode(m)) is m with streaming off; encode(decode(w)) is w for the two sender strings the encoder writes |
| ChatViewModel.History | ViewModels/ChatViewModel.swift:63-65 | one history entry per message, in order, with its content and the role "user" for user messages and "assistant" for AI messages |
| ChatViewModel.FirstIndexOf | ViewModels/ChatViewModel.swift:73 | the index found holds the id and no earlier message does; none is found iff no message has the id |
| ChatViewModel.RewriteAtFirstIndex | ViewModels/ChatViewModel.swift:73-81 | replacing the message at the first index with the id is the rewrite Rewritten specifies, and a missing id leaves the list alone |
| ChatViewModel.RewrittenTwice | ViewModels/ChatViewModel.swift:69-93 | a rewrite keeps the length, and a later rewrite of the same id overrides an earlier one, so only the last chunk text and flag matter |
| ChatViewModel.WithoutIdMembers | ViewModels/ChatViewModel.swift:109 | after removeAll no message has the id, and exactly the messages with other ids remain |
| ChatViewModel.WithoutRewritten | ViewModels/ChatViewModel.swift:98-110 | removing the placeholder after partial chunks is removing it from the list as first sent |
| ChatViewModel.JoinedPrefix | ViewModels/ChatViewModel.swift:69-70 | the text shown after any number of chunks is a prefix of the final text |
| ChatViewModel.WelcomeMessage | ViewModels/ChatViewModel.swift:146-152 | an AI message with the fixed welcome text, not streaming |
| ChatViewModel.ApologyMessage | ViewModels/ChatViewModel.swift:103-106 | an AI message with the fixed apology text, not streaming |
| ChatViewModel.Sent | ViewModels/ChatViewModel.swift:37-55 | the user message with the text, then an AI placeholder with the fresh id, empty content and streaming on |
| ChatViewModel.SendFinishedShape | ViewModels/ChatViewModel.swift:84-93 | with non-colliding ids, a finished reply leaves the old messages, the user message and the finalised reply with the placeholder's timestamp: two more messages |
| ChatViewModel.SendFailedShape | ViewModels/ChatViewModel.swift:98-111 | with non-colliding ids, a failed reply leaves the old messages, the user message and the apology: two more messages |
| ChatViewModel.ChatViewModel.constructor | ViewModels/ChatViewModel.swift:13-18 | no messages, not loading, supportive tone, no error, nothing streaming |
| ChatViewModel.ChatViewModel.RewriteMessage | ViewModels/ChatViewModel.swift:73-81 | the list becomes its rewrite at the first message with the id; no other field changes |
| ChatViewModel.ChatViewModel.ApplyChunks | ViewModels/ChatViewModel.swift:69-82 | the accumulated text is all chunks joined in order; the message with the id is rewritten to show it, still streaming (unchanged when there are no chunks); no other field changes |
| ChatViewModel.ChatViewModel.SendMessage | ViewModels/ChatViewModel.swift:35-115 | the request carries the text, the tone's raw value and the history of every message but the placeholder; after each chunk the placeholder holds all chunks so far (loop invariant); a normal end finalises it with the full text, an error records the error and replaces the placeholder by the apology; loading and the streaming id are reset either way |
| ChatViewModel.ChatViewModel.UpdateTone | ViewModels/ChatViewModel.swift:117-118 | only the tone changes |
| ChatViewModel.ChatViewModel.AddWelcomeMessage | ViewModels/ChatViewModel.swift:146-152 | the welcome message is appended and nothing else changes |
| ChatViewModel.ChatViewModel.ClearConversation | ViewModels/ChatViewModel.swift:133-135 | the list becomes exactly the one welcome message |
| ChatViewModel.ChatViewModel.LoadConversationHistory | ViewModels/ChatViewModel.swift:21-33 | fetched messages replace the list; on failure the welcome message is added only to an empty list, and a non-empty list is kept |
| Extensions.LocalCharsExact | Utilities/Extensions.swift:65 | `[A-Z0-9a-z._%+-]` holds exactly letters, digits and . _ % + - |
| Extensions.DomainCharsExact | Utilities/Extensions.swift:65 | `[A-Za-z0-9.-]` holds exactly letters, digits, . and - |
| Extensions.LetterCharsExact | Utilities/Extensions.swift:65 | `[A-Za-z]` holds exactly the ASCII letters |
| Extensions.SplitMatches | Utilities/Extensions.swift:64-68 | every string of the shape local@domain.tld (tld 2 to 64 letters) is accepted |
| Extensions.MatchSplits | Utilities/Extensions.swift:64-68 | every accepted string has that shape, at the positions returned |
| Extensions.IsValidEmailShape | Utilities/Extensions.swift:64-68 | a string is accepted iff it splits as a non-empty local part, '@', a non-empty domain, '.' and 2 to 64 letters |
| Extensions.ValidEmailOneAt | Utilities/Extensions.swift:65 | an accepted string has exactly one '@' and ends with at least two letters |
| Extensions.EmailAcceptsExample | Utilities/Extensions.swift:64-68 | "test@example.com" is accepted |
| Extensions.NoAtRejected | Utilities/Extensions.swift:64-68 | a string without '@' is rejected |
| Extensions.EmailRejectsExamples | Utilities/Extensions.swift:64-68 | "invalid-email" and "" are rejected |
| Extensions.Truncated | Utilities/Extensions.swift:71-76 | a string of at most n characters comes back unchanged; a longer one becomes its first n characters followed by the trailing text, so its length is n + the trailing length |
| Extensions.TruncatedIdempotent | Utilities/Extensions.swift:71-76 | truncating a truncated string again with the same arguments changes nothing |
| Extensions.WithKeyMembers | Utilities/Extensions.swift:151-155 | a group holds only transactions of the input whose key is the group's key |
| Extensions.WithKeyAppend | Utilities/Extensions.swift:151-155 | adding a transaction at the end of the input adds it at the end of its own group only, so groups keep input order |
| Extensions.GroupedByCategory | Utilities/Extensions.swift:151-155 | the keys are exactly the keys of the input's transactions (first category, or "Other"), and each group is the transactions with that key in input order |
| Extensions.GroupsPartition | Utilities/Extensions.swift:151-155 | each transaction occurs in the group of its key as often as in the input, and in no other group |
| Extensions.WithKeyCount | Utilities/Extensions.swift:151-155 | the count of a transaction in a key's selection is its input count when the key is its own, else zero |
| Models.ChatToneFromRaw | Models/Models.swift:40-43 | a raw value decodes to the tone with that raw value, and fails exactly for strings other than supportive, direct and neutral |
| Models.ChatToneTable | Models/Models.swift:40-51 | every tone's raw value decodes back to it; the display name is the raw value with a capital first letter |
| Models.ChatToneCount | Models/Models.swift:40-43 | there are exactly three distinct tones |
| Models.GoalCategoryFromRaw | Models/Models.swift:175-181 | a raw value decodes to the category with that raw value, and fails exactly when no category has it |
| Models.GoalCategoryRawValues | Models/Models.swift:175-181 | each raw value is the case name except debtPayoff's "debt_payoff"; each decodes back to its category |
| Models.GoalDisplayNamesDistinct | Models/Models.swift:183-192 | no two categories share a display name |
| Models.NewChatMessage | Models/Models.swift:214-220 | every field is stored exactly as passed |
| Models.NewChatMessageNotStreaming | Models/Models.swift:214 | a message is not streaming unless asked |
| Models.RemainingAmount | Models/Models.swift:119-121 | remaining + spent = allocated, and remaining is negative exactly when spending exceeds the allocation |
| Models.PercentageUsed | Models/Models.swift:123-126 | 0 without a positive allocation, else the percentage p with p * allocated = spent * 100 |
| Models.PercentageUsedBounds | Models/Models.swift:119-126 | with a positive allocation and non-negative spending the percentage is non-negative, and at most 100 exactly when nothing is overspent |
| Models.Progress | Models/Models.swift:158-161 | 0 without a positive target, else the percentage p with p * target = current * 100 |
| Models.ProgressComplete | Models/Models.swift:158-161 | a goal reaches 100 percent exactly when the saved amount reaches the target |
| LegacyNetworkManager.ErrorDescription | NetworkManager.swift:17-30 | a server error is described by its status code; a decoding error by fixed text with no detail |
| LegacyNetworkManager.Receive | NetworkManager.swift:49-65 | transport errors pass through; non-HTTP is `noData`; any status outside 200-299, 401 included, is `serverError(status)`; success iff 2xx and decoding succeeds; a decode failure is `decodingError` |
| LegacyNetworkManager.FetchRequest | NetworkManager.swift:44-49 | the URL string is parsed verbatim with no base prefix; the request is a GET with no headers and no body |
| LegacyNetworkManager.Fetch | NetworkManager.swift:44-66 | `invalidURL` when the string is not a URL, else the outcome of Receive |
| LegacyNetworkManager.Post | NetworkManager.swift:68-98 | sent iff the URL parses and the body encodes; a POST with only the JSON content type, so no Authorization header; then Receive |
| LegacyNetworkManager.StatusHandlingComparedWithServicesClient | NetworkManager.swift:55-57 | the two clients agree on success, on `noData` and on other rejections' status, but 401 is `serverError(401)` here and `unauthorized` in the Services client |
| LegacyExtensions.AgreesWithUtilities | Extensions.swift:30-34 | the legacy email check accepts exactly the strings the Utilities one accepts |
| LegacyExtensions.IsValidEmailShape | Extensions.swift:30-34 | a string is accepted iff it splits as local part, '@', domain, '.' and 2 to 64 letters |
| LegacyExtensions.ValidEmailOneAt | Extensions.swift:31 | an accepted string has exactly one '@' |
| LegacyExtensions.EmailValidationTest | MyAppTests.swift:66-71 | "test@example.com" is accepted; "invalid-email" and "" are rejected |

## Left out

- I/O and concurrency are not modelled. That covers URLSession, `waitsForConnectivity`, actor isolation, `Task`, and the `AsyncThrowingStream` plumbing. Their results are inputs.
- Stream cancellation is not modelled. A consumer may stop iterating the chat stream, but the stream sets no `onTermination` handler, so its inner `Task` keeps reading the connection. The model sees only the lines that were read.
- Foreign libraries are oracles: JSON encoding, decoding and serialisation (with the snake-case and ISO-8601 strategies), `URL(string:)`, and the Keychain lookup.
- The session's configured timeout is not modelled. Only the streaming call's explicit 120-second override is recorded.
- Header names are kept exactly as set. URLRequest's case-insensitive header matching is not modelled.
- Http.URLRequest: stands in for Foundation's value type, modelled as a mutable object whose `Value()` is the request handed to the session.
- Strings are sequences of characters, not grapheme clusters. Swift compares and drops grapheme clusters in `truncated`, in the `hasPrefix("http")` of URL resolution, and in the `hasPrefix("data: ")` and `dropFirst(6)` of the stream's line filter. A line such as `data: ` followed by a combining accent and `x` is skipped by Swift but yields a payload in `NetworkManager.Events`.
- `Double` arithmetic is `real` arithmetic. Rounding is not modelled, only the zero guards.
- NSPredicate's ICU regex engine is not modelled. Only the meaning of the one pattern is: character-class repetitions matched against the whole string.
- ChatViewModel.WireMessage: a missing or ill-typed key in the decoder's container is a decoder failure and is not modelled.
- The tone preference `put` in `updateTone` and the history `delete` in `clearConversation` are left out. Both run in a detached `Task` whose errors are only printed, so only the local state change is modelled.
- The conversation save after a finished reply is left out. `sendMessage` awaits it before it resets `isLoading` and `streamingMessageId`, but the save catches and prints its own errors, so it changes no modelled state.
- `print` logging is left out.
- The rest of the repository is not part of this model:
  - SwiftUI views, the app entry point and content view;
  - `DashboardViewModel`: Double sums, `async let`, Combine and date filtering;
  - the Keychain wrapper and the configuration constants (the base origin is `Client.baseURL`);
  - the currency, percentage, rounding, date and calendar helpers, `groupedByDate` and `totalAmount`;
  - the goal icons and the other enums and records without logic;
  - the Express/Plaid server and the browser scripts.
- Extensions.Truncated: requires a non-negative length, because `prefix` stops the program on a negative one.
