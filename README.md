# Messenger relay: a verified model

The relay (`server.js`) sits between users of a messaging platform and
operators on a live dashboard. The platform posts message events to
`/webhook`. The relay records each sender as connected, keeps a per-sender
conversation history, notifies the dashboards, and, for a sender whose
session has AI turned on, asks a generative-AI backend for a reply and sends
it back. Operators can send to one sender, broadcast to every connected
sender, turn AI on or off for a sender, and read a sender's history.

This project models that relay in Dafny:

- `wrappers.dfy` (`Wrappers`): `Option` for fields and query parameters that
  may be missing. `Truthy` gives JavaScript's truthiness of such a string:
  present and non-empty.
- `webhook.dfy` (`Webhook`): the GET verification handshake. It also holds the
  POST body as a datatype of optional fields, and its normalisation into
  (sender, text) pairs. Only `messaging[0]` of each entry is read. Finally it
  gives the POST's answer.
- `gemini.dfy` (`Gemini`): the pure parts of the AI call. That is the `parts`
  list, the request body, the defensive read of
  `candidates[0].content.parts[0].text` with its placeholder, and the value
  the call resolves to (null only on failure).
- `tables.dfy` (`Tables`): the three tables as values (`sessionMap`,
  `connectedSenders`, `messageHistory`). It defines one function per table
  update: what intake, send and broadcast do to each table. The lemmas prove
  the handlers' properties about these functions.
- `relay.dfy` (`Relay`): class `Hub`. Its fields are the three tables, plus
  two ghost logs: the outbound `sendMessage` calls (`outbox`) and the
  dashboard emits (`notices`). There is one method per handler. The two
  `forEach` loops are `while` loops with invariants. Every method states its
  whole new state in terms of the `Tables` functions. `Valid()` says the
  connected list has no repeats and every connected sender has a history.

The JavaScript `Set` of connected senders is a duplicate-free sequence in
insertion order, so "broadcast visits senders in insertion order" can be
stated. The AI continuation (`.then` at server.js:56-61) is a separate step,
`CompleteAiReply`. It receives the task that intake scheduled, and the task
carries the session read at intake. The code follows that session even if an
operator has since changed it.

A sender can have a history or a session without being connected. A `send`
or `assignAI` for a sender that never wrote creates one without connecting
the sender (server.js:79-80, 84); `Relay.SendToUnknownSender` walks through
the case. The invariant that holds, and that `Hub.Valid()` states, is that
every connected sender has a history.

## Model

| member | source | states |
|---|---|---|
| `Webhook.Verify` | server.js:22-34 | 200 exactly when `hub.mode` is truthy and the token is `"hello"`, with the challenge (empty when absent) as body; otherwise 403. It depends only on the query, so no table changes |
| `Webhook.Accepted` | server.js:41-44 | an entry yields at most one (sender, text) pair, read from `messaging[0]` only, and exactly when that event has a message with truthy text |
| `Webhook.TextEvents` | server.js:40-44 | the pairs of a list of entries: at most one per entry, every text non-empty |
| `Webhook.PostReply` | server.js:65-68 | 200 `EVENT_RECEIVED` exactly for a body whose `object` is `"page"`; 404 otherwise |
| `Webhook.FirstEventOnly` | server.js:41 | entries that agree on their first messaging event yield the same pairs, whatever their later events are |
| `Webhook.TextlessEntries` | server.js:43 | entries whose first event has no message or a falsy text yield no pairs |
| `Webhook.TextEventsAt` | server.js:40-44 | each entry's pair sits in the body's pairs between those of the entries before and after it, so an entry whose first event has a truthy text is always accepted |
| `Webhook.TextEventsAppend` | server.js:40 | the pairs of two lists of entries read one after the other are those of the first followed by those of the second |
| `Webhook.TextEventsOrigin` | server.js:40-44 | every pair comes from the first event of some entry of the body |
| `Gemini.Parts` | server.js:124 | the system prompt comes first exactly when it is truthy, and the user's text is always last; one or two parts |
| `Gemini.BuildRequest` | server.js:124-128 | the request holds one content, whose parts are the `Parts` list |
| `Gemini.RequestRoundTrip` | server.js:124-128 | reading the request back gives the user's text and the system prompt, which is dropped exactly when falsy |
| `Gemini.ExtractReply` | server.js:131 | the reply is never empty: the text at `candidates[0].content.parts[0]` when it is truthy, else `"(No response from AI)"` |
| `Gemini.ExtractRoundTrip` | server.js:131 | extraction returns any non-empty text placed at that path, whatever other candidates and parts follow |
| `Gemini.ExtractFallback` | server.js:131 | a missing step anywhere on the path, or a falsy text, gives the placeholder |
| `Gemini.CallResult` | server.js:122-135 | the call resolves to null exactly when it failed; a successful call always resolves to a truthy reply |
| `Tables.Push` | server.js:51-52 | the entry is appended at the end of the sender's history, created if absent; no other history changes |
| `Tables.Connect` | server.js:47 | `Set.add`: the sender is present afterwards, existing order is kept, and no repeat is introduced |
| `Tables.ConnectAllKeeps` | server.js:40-47 | intake keeps the old connected list as a prefix and keeps it duplicate-free. It adds exactly the senders of accepted pairs |
| `Tables.RecordAllLookup` | server.js:40-52 | for every sender, intake appends that sender's accepted texts, in order, as user entries at the end of its history. The set of histories grows by exactly the accepted senders |
| `Tables.UserLinesOfOthers` | server.js:51-52 | a sender with no accepted pair gets no entry, so its history is untouched |
| `Tables.UserLinesOfOne` | server.js:51-52 | a sender with exactly one accepted pair gets exactly that one user entry |
| `Tables.AiTasksScheduled` | server.js:54-56 | every scheduled AI reply is for a sender whose session has `assignToAI` set, and carries that session. None is scheduled exactly when no accepted sender has AI on |
| `Tables.AiTasksMatchPairs` | server.js:54-56 | a reply is scheduled for exactly the accepted pairs whose sender has AI on: each such pair gets a task carrying its sender, that sender's session and its text, and every task is one of these |
| `Tables.AiTasksAllAssigned` | server.js:54-56 | when every accepted sender has AI on, there is exactly one scheduled reply per pair, in order |
| `Tables.ConnectAllAppend` | server.js:40 | accepting entries one after another connects the same senders as accepting them all at once |
| `Tables.RecordAllAppend` | server.js:40 | accepting entries one after another records the same history as accepting them all at once |
| `Tables.NoticesAppend` | server.js:48-49 | the dashboard notices of a body are those of its first part followed by those of the rest |
| `Tables.AiTasksAppend` | server.js:54-56 | the AI replies scheduled for a body are those of its first part followed by those of the rest |
| `Tables.BroadcastSendsAt` | server.js:89-90 | N connected senders give exactly N sends, the i-th to the i-th sender in insertion order, all with the same text and token |
| `Tables.PushAllLookup` | server.js:89-92 | pushing to distinct senders gives each exactly one entry at the end. Every other history is unchanged, and the set of histories grows by exactly those senders |
| `Relay.Hub.constructor` | server.js:17-19 | the process starts with no sessions, no connected senders and no histories |
| `Relay.Hub.ReceiveWebhook` | server.js:37-69 | answers `PostReply`. A non-page body changes nothing. A page body connects, records, notifies and schedules exactly as the `Tables` folds of its accepted pairs say. Sessions and outbound sends are untouched. Each sender's history gains exactly its own texts |
| `Relay.Hub.AcceptEntry` | server.js:41-63 | one `forEach` callback: the tables change by the entry's accepted pair, if any, and not otherwise |
| `Relay.Hub.AcceptText` | server.js:47-62 | for one accepted pair: connects the sender, emits the message and the sender list, and pushes the user entry. It schedules an AI reply exactly when the sender's session has AI on |
| `Relay.Hub.CompleteAiReply` | server.js:56-61 | a truthy reply is sent once, with the token of the session captured at intake, and appended once as an AI entry. A null or empty reply changes nothing. Sessions and the connected list are untouched |
| `Relay.Hub.Send` | server.js:77-81 | exactly one outbound send and one operator entry at the end of the target's history, created if absent. The connected list, the sessions and other histories are unchanged |
| `Relay.Hub.AssignAI` | server.js:83-86 | the sender's whole session record is replaced; histories, the connected list and other sessions are unchanged |
| `Relay.Hub.Broadcast` | server.js:88-94 | one send per connected sender in insertion order, and exactly one operator entry appended to each connected sender's history. Non-connected histories, sessions and the connected list are unchanged |
| `Relay.Hub.GetHistory` | server.js:96-98 | read-only; the stored history, or the empty sequence for a sender without one |
| `Relay.Hub.SendersOnConnect` | server.js:75 | read-only; the connected senders in insertion order, without repeats |

## Left out

- Express routing, `bodyParser`, static files, `server.listen`, the `PORT` lookup and `console.log`: transport and logging, with no effect on the tables.
- Socket.IO transport: each `io.emit` is an entry in the ghost `notices` log. The per-connection `socket.emit` of the sender list is `SendersOnConnect`'s result. Sockets and clients are not modelled.
- Outbound HTTP: `fetch`, the URLs with the page token and API key, `JSON.stringify` and `res.json()`. Each `sendMessage` call is an `Outbound` record in the ghost `outbox`; its own failures are swallowed, so the record and the history append always happen. The AI call's network/parse result is the `Gemini.Outcome` parameter.
- Promise scheduling: the AI continuation is the later step `CompleteAiReply`. In `send`, other handlers may run during the `await` before the history push; the model performs the send and the push as one step.
- Crashes: a page body without an `entry` array, an entry with an empty `messaging` list, or a first event without a sender throws a TypeError part-way through. `ReceiveWebhook` requires a well-formed body instead of modelling the partial state.
- `sender` present without an `id`, and JSON values of unexpected types (a numeric `text`, a non-boolean `assignToAI`, a `null` candidate in a list), are not modelled. Fields are either absent or of the expected type.
- A query parameter repeated in the URL (which Express turns into an array) is not modelled; each parameter is a string or absent.
- `CompleteAiReply` requires the sender's history to exist. Intake always creates it before scheduling, and nothing deletes histories.
