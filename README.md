# WhatsApp bot with webhooks — a Dafny model of its core

This project models the core of a multi-session WhatsApp bot back end with a web dashboard:

- **Delivery log and fan-out** (`DeliveryLog.dfy`). The webhook dispatcher posts every incoming message to each configured URL. It records one delivery entry per attempt in a log that keeps only the newest 100 entries, and it answers test probes that leave the log alone.
- **Session table** (`Sessions.dfy`). The session manager keeps a table of sessions keyed by id, in insertion order. Each record moves through `initializing`, `qr`, `authenticated`, `ready` and `disconnected` as the wrapped client raises events. The table refuses duplicate ids and a full table. The manager normalises recipient numbers into chat ids, sends text and media, forwards incoming messages, and logs out or destroys sessions.
- **Webhook controller** (`Settings.dfy`). It validates a settings update all or nothing. It validates a test request. It rewrites the `WEBHOOK_URLS=` line of the `.env` file.
- **Bearer-token middleware** (`Auth.dfy`).
- **Dashboard helpers** (`UrlEditor.dfy` and `SessionStats.dfy`). The URL editor adds and removes webhook URLs. The session statistics give the counters the dashboard shows.
- **Supporting modules.** `Strings.dfy` holds JavaScript's `split`, `join` and `startsWith` on one separator character, with their round trips. `AppConfig.dfy` holds the mutable configuration and the `.env` file. `Wrappers.dfy` holds `Option` and `Result`.

Objects the source updates in place are classes with `modifies` clauses:

- `WebhookService`, whose `deliveryLogs` array is a `seq` field;
- `WhatsAppService`, whose `Map` is a `map` field plus a `seq` of keys for its insertion order;
- `WebhookController`, `Config` and `EnvFile`.

Pure computations are functions, and their properties are lemmas.

Everything outside the process is a parameter of the operation that uses it:

- the HTTP client, reduced to the outcome of each post and its elapsed time;
- clocks and id generation (an `Attempt` carries the id, the timestamp and the outcome);
- the WhatsApp client (the outcomes of `initialize`, `sendMessage`, `logout`, `destroy` and loading a media file);
- the file system (whether reading and writing `.env` and removing the session directory succeed);
- URL parsing (`isValidUrl`).

## Model

| member | source | states |
|---|---|---|
| DeliveryLog.EntryFor | whatsapp_bot_with_webhooks_and_persistence/whatsapp_bot_project/backend/src/services/WebhookService.ts:47-79 | A delivery entry carries the attempt's id, timestamp, URL and payload. It is a success exactly when the post answered. It has an error exactly when it failed, and the error is the thrown message or "Unknown error". It always has a response time. |
| DeliveryLog.Entries | whatsapp_bot_with_webhooks_and_persistence/whatsapp_bot_project/backend/src/services/WebhookService.ts:43 | A fan-out builds one entry per URL, in URL order: the i-th is `EntryFor` of the i-th URL and its own attempt. |
| DeliveryLog.Append | whatsapp_bot_with_webhooks_and_persistence/whatsapp_bot_project/backend/src/services/WebhookService.ts:131-138 | The log never exceeds 100 entries. The new entry is the last one. Below capacity nothing is lost; at capacity exactly the oldest entry is evicted. |
| DeliveryLog.AppendAll | whatsapp_bot_with_webhooks_and_persistence/whatsapp_bot_project/backend/src/services/WebhookService.ts:131-138 | After a batch the log is the newest 100 of the old log followed by the batch. When both fit in 100 entries nothing is lost. A batch of 100 or more, as in a fan-out to that many URLs, leaves only its own last 100 entries, whatever the log held before. |
| DeliveryLog.AppendAllSnoc | whatsapp_bot_with_webhooks_and_persistence/whatsapp_bot_project/backend/src/services/WebhookService.ts:131-138 | One more `addToLog` after a batch gives the log of the longer batch, so adding entries one at a time is the same as adding them as a batch. |
| DeliveryLog.DispatchStep | whatsapp_bot_with_webhooks_and_persistence/whatsapp_bot_project/backend/src/services/WebhookService.ts:36-45 | Each delivery of a fan-out adds the next URL's entry to the log that the earlier deliveries left. |
| DeliveryLog.DispatchWithinCapacity | whatsapp_bot_with_webhooks_and_persistence/whatsapp_bot_project/backend/src/services/WebhookService.ts:36-45 | If the old log and one entry per URL fit in 100, the fan-out appends exactly one entry per configured URL, in URL order, each built from that URL's attempt. |
| DeliveryLog.ReverseIsNewestFirst | whatsapp_bot_with_webhooks_and_persistence/whatsapp_bot_project/backend/src/services/WebhookService.ts:122-124 | The listing of the log after an append starts with the entry just added, ends with the oldest kept entry, and reverses back to the log. |
| DeliveryLog.TestPayload | whatsapp_bot_with_webhooks_and_persistence/whatsapp_bot_project/backend/src/services/WebhookService.ts:85-96 | The test payload is for session `test_session`, sent from `1234567890@c.us` to `test_bot@c.us`, with the fixed test text as its message. Its details are a `chat` message stamped with the current time, and their body is the payload's message. |
| DeliveryLog.ProbeFor | whatsapp_bot_with_webhooks_and_persistence/whatsapp_bot_project/backend/src/services/WebhookService.ts:100-119 | A probe succeeds exactly when the post answered. It has an error exactly when it failed, equal to the thrown message or "Unknown error". It reports the elapsed time either way. |
| DeliveryLog.WebhookService.constructor | whatsapp_bot_with_webhooks_and_persistence/whatsapp_bot_project/backend/src/services/WebhookService.ts:22-27 | The dispatcher starts with an empty log. |
| DeliveryLog.WebhookService.SendWebhook | whatsapp_bot_with_webhooks_and_persistence/whatsapp_bot_project/backend/src/services/WebhookService.ts:36-45 | With no URLs the log is unchanged. Otherwise the log becomes the old log with one entry per URL appended under the 100-entry cap, and the cap invariant is kept. |
| DeliveryLog.WebhookService.SendToSingleWebhook | whatsapp_bot_with_webhooks_and_persistence/whatsapp_bot_project/backend/src/services/WebhookService.ts:47-82 | One delivery appends exactly the entry that `EntryFor` describes, under the cap. |
| DeliveryLog.WebhookService.TestWebhook | whatsapp_bot_with_webhooks_and_persistence/whatsapp_bot_project/backend/src/services/WebhookService.ts:84-120 | A probe posts the fixed test payload and reports exactly what `ProbeFor` gives for the post's outcome. It does not touch the log. |
| DeliveryLog.WebhookService.GetDeliveryLogs | whatsapp_bot_with_webhooks_and_persistence/whatsapp_bot_project/backend/src/services/WebhookService.ts:122-124 | The listing holds every logged entry, newest first: position i holds the i-th newest. |
| DeliveryLog.WebhookService.ClearDeliveryLogs | whatsapp_bot_with_webhooks_and_persistence/whatsapp_bot_project/backend/src/services/WebhookService.ts:126-129 | The log becomes empty. |
| DeliveryLog.WebhookService.AddToLog | whatsapp_bot_with_webhooks_and_persistence/whatsapp_bot_project/backend/src/services/WebhookService.ts:131-138 | Push and trim leave the log as `Append` describes: the cap is kept and the oldest entry is evicted when full. |
| Sessions.OrUnknown | whatsapp_bot_with_webhooks_and_persistence/whatsapp_bot_project/backend/src/services/WhatsAppService.ts:143-145 | A device name or platform is never empty: an empty one becomes "Unknown" and any other is kept as it is. |
| Sessions.ApplyEvent | whatsapp_bot_with_webhooks_and_persistence/whatsapp_bot_project/backend/src/services/WhatsAppService.ts:126-160 | Each client event sets its status and keeps the id. `qr` records the code. `ready` records the client info. A disconnect clears both. Authentication and an authentication failure leave code and info as they were. |
| Sessions.NeverBackToInitializing | whatsapp_bot_with_webhooks_and_persistence/whatsapp_bot_project/backend/src/services/WhatsAppService.ts:126-160 | After any non-empty sequence of events a session is no longer `initializing`, and it keeps its id. |
| Sessions.QrCodeKeptAfterQrState | whatsapp_bot_with_webhooks_and_persistence/whatsapp_bot_project/backend/src/services/WhatsAppService.ts:127-160 | A QR code survives authentication, readiness and an authentication failure. Only a disconnect clears it. |
| Sessions.SessionIdFor | whatsapp_bot_with_webhooks_and_persistence/whatsapp_bot_project/backend/src/services/WhatsAppService.ts:77 | A non-empty requested id is used as given. A missing or empty one is replaced by the generated id. |
| Sessions.Digits | whatsapp_bot_with_webhooks_and_persistence/whatsapp_bot_project/backend/src/services/WhatsAppService.ts:247 | Stripping non-digits yields only digits, is no longer than the input, and keeps an all-digit string intact. A single character is kept exactly when it is a digit. |
| Sessions.DigitsAppend | whatsapp_bot_with_webhooks_and_persistence/whatsapp_bot_project/backend/src/services/WhatsAppService.ts:247 | Stripping works character by character: stripping a concatenation is concatenating the stripped parts. With the one-character case this fixes the result for every input. |
| Sessions.ChatId | whatsapp_bot_with_webhooks_and_persistence/whatsapp_bot_project/backend/src/services/WhatsAppService.ts:247 | A chat id always contains `@`. An address with `@` passes through unchanged. Anything else becomes its digits followed by `@c.us`. |
| Sessions.ChatIdIdempotent | whatsapp_bot_with_webhooks_and_persistence/whatsapp_bot_project/backend/src/services/WhatsAppService.ts:280 | Normalising a chat id twice is normalising once, and a bare number only gains the `@c.us` suffix. |
| Sessions.IncomingPayload | whatsapp_bot_with_webhooks_and_persistence/whatsapp_bot_project/backend/src/services/WhatsAppService.ts:175-206 | A payload is produced exactly when the session is tracked and has client info. It is addressed from the sender to the session's own number, and its text is the body or "" when there is none. |
| Sessions.Without | whatsapp_bot_with_webhooks_and_persistence/whatsapp_bot_project/backend/src/services/WhatsAppService.ts:308 | Removing an id leaves exactly the other ids, keeps a duplicate-free order duplicate-free, and changes nothing when the id is absent. |
| Sessions.WithoutAppend | whatsapp_bot_with_webhooks_and_persistence/whatsapp_bot_project/backend/src/services/WhatsAppService.ts:308 | Removal keeps the remaining ids in their order: removing from a concatenation removes from each part. |
| Sessions.Listing | whatsapp_bot_with_webhooks_and_persistence/whatsapp_bot_project/backend/src/services/WhatsAppService.ts:227 | The values of the table in insertion order, one per key. |
| Sessions.WhatsAppService.constructor | whatsapp_bot_with_webhooks_and_persistence/whatsapp_bot_project/backend/src/services/WhatsAppService.ts:15-19 | The manager starts with an empty, well-formed table, and it shares the configuration and the dispatcher. |
| Sessions.WhatsAppService.CreateSession | whatsapp_bot_with_webhooks_and_persistence/whatsapp_bot_project/backend/src/services/WhatsAppService.ts:76-124 | A tracked id is refused first, then a table at the limit. Otherwise a fresh `initializing` record is inserted, and it stays exactly when the client initialises. A failed initialisation restores the table and its order. Creation never pushes the table past `maxSessions`. |
| Sessions.WhatsAppService.HandleClientEvent | whatsapp_bot_with_webhooks_and_persistence/whatsapp_bot_project/backend/src/services/WhatsAppService.ts:126-160 | An event updates only its own session's record, as `ApplyEvent` says. The order and every other record are unchanged. |
| Sessions.WhatsAppService.HandleMessage | whatsapp_bot_with_webhooks_and_persistence/whatsapp_bot_project/backend/src/services/WhatsAppService.ts:163-214 | A message sent by this account, one for an untracked session, or one for a session without client info changes nothing. Any other message is fanned out to the configured URLs, so its entries join the delivery log. |
| Sessions.WhatsAppService.GetSession | whatsapp_bot_with_webhooks_and_persistence/whatsapp_bot_project/backend/src/services/WhatsAppService.ts:221-224 | Returns the record exactly when the id is tracked. |
| Sessions.WhatsAppService.GetAllSessions | whatsapp_bot_with_webhooks_and_persistence/whatsapp_bot_project/backend/src/services/WhatsAppService.ts:226-228 | Returns every tracked record once, in insertion order, and nothing else. |
| Sessions.WhatsAppService.SendTextMessage | whatsapp_bot_with_webhooks_and_persistence/whatsapp_bot_project/backend/src/services/WhatsAppService.ts:230-260 | An unknown session is refused with "Session not found" and one that is not ready with "Session not ready"; in both cases nothing is sent. Otherwise the text goes to the normalised chat id, and the answer is the sent message's id or the client's error. |
| Sessions.WhatsAppService.SendMediaMessage | whatsapp_bot_with_webhooks_and_persistence/whatsapp_bot_project/backend/src/services/WhatsAppService.ts:262-296 | It gives the same two refusals. A file that fails to load is reported without sending. Otherwise the file goes to the normalised chat id, with an empty caption dropped. |
| Sessions.WhatsAppService.Logout | whatsapp_bot_with_webhooks_and_persistence/whatsapp_bot_project/backend/src/services/WhatsAppService.ts:298-321 | An untracked id, or a failed logout or destroy, reports false and changes nothing. Otherwise the record is removed and the rest keep their order. The answer is whether the directory clean-up succeeded. |
| Sessions.WhatsAppService.DestroySession | whatsapp_bot_with_webhooks_and_persistence/whatsapp_bot_project/backend/src/services/WhatsAppService.ts:323-338 | Answers true exactly when the id is tracked and the client was destroyed. In that case only that record is removed; otherwise nothing changes. |
| Settings.ValidUrls | whatsapp_bot_with_webhooks_and_persistence/whatsapp_bot_project/backend/src/controllers/WebhookController.ts:93-100 | The filter keeps only parsable URLs and is never longer than its input. |
| Settings.ValidUrlsAllOrNothing | whatsapp_bot_with_webhooks_and_persistence/whatsapp_bot_project/backend/src/controllers/WebhookController.ts:93-108 | The length check passes exactly when every URL parses. In that case the filtered list is the submitted list, order and duplicates included. |
| Settings.KeyIndex | whatsapp_bot_with_webhooks_and_persistence/whatsapp_bot_project/backend/src/controllers/WebhookController.ts:252 | Finds the first line starting with `key=`, or -1 when no line does. |
| Settings.KeyIndexIs | whatsapp_bot_with_webhooks_and_persistence/whatsapp_bot_project/backend/src/controllers/WebhookController.ts:252 | The first line that starts with `key=` is the index found. |
| Settings.EditLines | whatsapp_bot_with_webhooks_and_persistence/whatsapp_bot_project/backend/src/controllers/WebhookController.ts:251-260 | Replaces the first `key=` line with `key=value` and keeps every other line, or appends `key=value` when there was none. |
| Settings.EditLinesIdempotent | whatsapp_bot_with_webhooks_and_persistence/whatsapp_bot_project/backend/src/controllers/WebhookController.ts:251-260 | Editing the lines twice with the same key and value is editing them once. |
| Settings.EditEnv | whatsapp_bot_with_webhooks_and_persistence/whatsapp_bot_project/backend/src/controllers/WebhookController.ts:251-263 | A file with no `key=` line keeps its whole text and gains `key=value` at the end, after a newline. |
| Settings.EditEnvLines | whatsapp_bot_with_webhooks_and_persistence/whatsapp_bot_project/backend/src/controllers/WebhookController.ts:251-263 | When key and value have no newline, the rewritten file read back as lines shows the edit and nothing else, and rewriting it again changes nothing. |
| Settings.EditEnvNewlineValueGrows | whatsapp_bot_with_webhooks_and_persistence/whatsapp_bot_project/backend/src/controllers/WebhookController.ts:93-114 | A value containing a newline, which URL parsing lets through, makes the rewrite grow on every save: `EditEnv("", "K", "a\nb")` is `"\nK=a\nb"`, and rewriting that again gives `"\nK=a\nb\nb"`. |
| Settings.WebhookController.constructor | whatsapp_bot_with_webhooks_and_persistence/whatsapp_bot_project/backend/src/controllers/WebhookController.ts:11-14 | The controller shares the dispatcher, the configuration and the `.env` file it is given. |
| Settings.WebhookController.UpdateSettings | whatsapp_bot_with_webhooks_and_persistence/whatsapp_bot_project/backend/src/controllers/WebhookController.ts:80-129 | A non-array is refused with 400 and changes nothing, and so is a list with any unparsable URL. A valid list replaces the configured one as given. The `.env` file then gets `WEBHOOK_URLS=` with the comma-joined list, answered 200. If the file cannot be read or written the answer is 500, and the new list stays in the configuration. |
| Settings.WebhookController.UpdateEnvFile | whatsapp_bot_with_webhooks_and_persistence/whatsapp_bot_project/backend/src/controllers/WebhookController.ts:242-268 | Succeeds exactly when an existing file could be read and the file could be written. On success the file is the line edit of its old content, or of "" when absent. On failure it is unchanged. |
| Settings.WebhookController.TestWebhook | whatsapp_bot_with_webhooks_and_persistence/whatsapp_bot_project/backend/src/controllers/WebhookController.ts:153-188 | A missing, empty or non-string url gets 400 "URL is required" and an unparsable one 400 "Invalid URL format", neither probing. Otherwise the probe runs and its result is returned with 200. |
| Auth.Authenticate | Backend/src/middlewares/auth.ts:5-29 | A missing header, or one without the `Bearer ` prefix, is refused as "no token". Otherwise the request proceeds exactly when the second space-separated piece equals the configured token, and is refused as an "invalid token" when it does not. |
| Auth.BearerToken | Backend/src/middlewares/auth.ts:17 | There is a second piece exactly when the header contains a space, and that piece contains no space. |
| Auth.TokenAfterPrefix | Backend/src/middlewares/auth.ts:17 | After `Bearer ` the token is the text up to the next space or the end. |
| Auth.AcceptsExactly | Backend/src/middlewares/auth.ts:8-28 | A request proceeds exactly when its header is `Bearer `, then the configured token, then the end or a space. A configured token containing a space is never accepted. |
| Auth.AcceptsCanonicalHeader | Backend/src/middlewares/auth.ts:17-19 | The header `Bearer <token>` is accepted for any token without a space. |
| UrlEditor.Trim | whatsapp_bot_with_webhooks_and_persistence/whatsapp_bot_project/frontend/src/app/webhook/page.tsx:90 | The trimmed text is a slice of the input with only whitespace outside it, and it neither starts nor ends with whitespace. All-whitespace text becomes "". Text already without surrounding whitespace is kept. |
| UrlEditor.TrimIdempotent | whatsapp_bot_with_webhooks_and_persistence/whatsapp_bot_project/frontend/src/app/webhook/page.tsx:90 | Trimming twice is trimming once. |
| UrlEditor.AddUrl | whatsapp_bot_with_webhooks_and_persistence/whatsapp_bot_project/frontend/src/app/webhook/page.tsx:89-97 | A blank entry, or one already listed after trimming, changes nothing. Any other entry is appended trimmed and the input box is cleared. |
| UrlEditor.AddUrlKeepsDistinct | whatsapp_bot_with_webhooks_and_persistence/whatsapp_bot_project/frontend/src/app/webhook/page.tsx:90-94 | Adding keeps a duplicate-free list duplicate-free. |
| UrlEditor.AddUrlTwice | whatsapp_bot_with_webhooks_and_persistence/whatsapp_bot_project/frontend/src/app/webhook/page.tsx:90 | Adding the same entry again leaves the list as the first add left it. |
| UrlEditor.RemoveUrl | whatsapp_bot_with_webhooks_and_persistence/whatsapp_bot_project/frontend/src/app/webhook/page.tsx:99-104 | The list loses one URL exactly when the index is in range and keeps its length otherwise. |
| UrlEditor.RemoveUrlOnlyDrops | whatsapp_bot_with_webhooks_and_persistence/whatsapp_bot_project/frontend/src/app/webhook/page.tsx:102 | Every URL left after a removal was in the list. |
| UrlEditor.RemoveUrlRemovesOne | whatsapp_bot_with_webhooks_and_persistence/whatsapp_bot_project/frontend/src/app/webhook/page.tsx:99-104 | An in-range index removes exactly that URL and the rest keep their order. An out-of-range index changes nothing. |
| UrlEditor.RemoveUrlIsSubsequence | whatsapp_bot_with_webhooks_and_persistence/whatsapp_bot_project/frontend/src/app/webhook/page.tsx:102 | Whatever the index, removal only drops URLs and never reorders or adds any. |
| SessionStats.CountIn | Frontend/src/app/page.tsx:80-86 | A count of sessions is at most the number of sessions. It is 0 for no sessions or no status. A single session counts 1 exactly when its status is wanted. |
| SessionStats.CountInSnoc | Frontend/src/app/page.tsx:80-86 | One more session adds 1 to a count exactly when its status is wanted, so a count is the number of sessions with a wanted status. |
| SessionStats.GetSessionStats | Frontend/src/app/page.tsx:78-89 | The total is the number of sessions. `ready` counts the ready sessions, `connecting` those with status `qr` or `initializing`, and `disconnected` the disconnected ones. No counter exceeds the total. |
| SessionStats.CountDisjoint | Frontend/src/app/page.tsx:80-86 | Counts over disjoint sets of statuses add up. |
| SessionStats.StatsPartition | Frontend/src/app/page.tsx:78-89 | `ready`, `connecting` and `disconnected`, plus the authenticated sessions that no counter shows, add up exactly to the total. |
| Strings.Split | whatsapp_bot_with_webhooks_and_persistence/whatsapp_bot_project/backend/src/controllers/WebhookController.ts:251 | `split` always gives at least one piece, and no piece holds the separator. The same function models `split(" ")` in Backend/src/middlewares/auth.ts:17. |
| Strings.Join | whatsapp_bot_with_webhooks_and_persistence/whatsapp_bot_project/backend/src/controllers/WebhookController.ts:263 | `join` of no pieces is "". Otherwise the text starts with the first piece, followed by the separator when there are more. `JoinSplit` and `SplitJoin` tie it to `Split`. |
| Strings.JoinSplit | whatsapp_bot_with_webhooks_and_persistence/whatsapp_bot_project/backend/src/controllers/WebhookController.ts:251-263 | Splitting the file on newlines and joining it back gives the same text. |
| Strings.SplitJoin | whatsapp_bot_with_webhooks_and_persistence/whatsapp_bot_project/backend/src/controllers/WebhookController.ts:251-263 | Joining lines that contain no newline and splitting again gives the same lines. |

## Behaviour of the code worth noting

The model follows the code in each case.

- The QR code stays on the record after the session leaves the `qr` status. Authentication and readiness keep it; only `disconnected` clears it (whatsapp_bot_with_webhooks_and_persistence/whatsapp_bot_project/backend/src/services/WhatsAppService.ts:127-137 and 150-155; `Sessions.QrCodeKeptAfterQrState`).
- An authentication failure sets `disconnected` but keeps the QR code and the client info. A plain disconnect clears both (whatsapp_bot_with_webhooks_and_persistence/whatsapp_bot_project/backend/src/services/WhatsAppService.ts:150-160).
- The delivery entry and its timestamp are created before the post starts, and the entry reaches the log when the post ends. `Attempt.timestamp` is the start time (whatsapp_bot_with_webhooks_and_persistence/whatsapp_bot_project/backend/src/services/WebhookService.ts:48-56).
- Restoring sessions at start-up does not check `maxSessions` (whatsapp_bot_with_webhooks_and_persistence/whatsapp_bot_project/backend/src/services/WhatsAppService.ts:21-64). Later `createSession` calls count the restored sessions, because they are in the table that the limit test reads (whatsapp_bot_with_webhooks_and_persistence/whatsapp_bot_project/backend/src/services/WhatsAppService.ts:54 and 83). So `|sessions| <= maxSessions` is not an invariant of the table: start-up can already exceed it. The model proves only that `createSession` never pushes the table past the limit.
- The token check uses `split(" ")[1]`. A header with text after the token and a space, such as `Bearer <token> extra`, is therefore accepted (Backend/src/middlewares/auth.ts:17; `Auth.AcceptsExactly`).
- Rewriting `.env` is idempotent only for values without a newline (`Settings.EditEnvLines`). URL parsing removes tabs and newlines before it parses, so a URL holding a newline passes the filter (whatsapp_bot_with_webhooks_and_persistence/whatsapp_bot_project/backend/src/controllers/WebhookController.ts:93-100). The unchanged text is then comma-joined into the value (whatsapp_bot_with_webhooks_and_persistence/whatsapp_bot_project/backend/src/controllers/WebhookController.ts:114). Its tail becomes a line of its own, which every later save keeps and follows with one more copy (whatsapp_bot_with_webhooks_and_persistence/whatsapp_bot_project/backend/src/controllers/WebhookController.ts:251-263; `Settings.EditEnvNewlineValueGrows`).

## Left out

- HTTP delivery (`axios.post`, its 10-second timeout and headers): each post is reduced to its outcome and elapsed time, given as a parameter.
- Concurrency: `Promise.allSettled` fans out in parallel and log entries arrive in completion order. The model appends them in URL order. Interleavings with other deliveries and with other requests are not modelled.
- HandleMessage: `sendWebhook` is not awaited in the source. The model runs it to completion inside the handler.
- `generateId`, `new Date()` and `Date.now()`: the id, timestamp and elapsed time are given in each `Attempt`.
- `getInstance` singletons and module-level `config`: the service objects are passed explicitly.
- Logging, console output and QR printing to the terminal: output only.
- `loadExistingSessions` and `ensureSessionDirectory`: start-up file-system scans, not part of this model. The table starts empty.
- The wrapped WhatsApp client: initialisation, sending, logout and destroy are reduced to their outcomes, given as parameters; `client.info` arrives with the `ready` event.
- The session directory removal in `logout` is reduced to whether it succeeds (`cleanupOk`).
- Reading and writing `.env`: reduced to whether each succeeds (`FileIo`), with the content held in `EnvFile`. Encoding is not modelled.
- `new URL(...)`: parsing is the parameter `isValidUrl`. Non-string array elements (which `new URL` coerces to text) are not representable; the array holds strings.
- `webhookUrls` being `null` or `undefined` in `sendWebhook`: not representable, so only the empty-list branch is modelled.
- Express (`req`, `res`, `next`), JSON bodies and the success payloads: each answer is reduced to its status and error text.
- Other exceptions caught by the controller's outer `try` (500 answers) are not modelled beyond the `.env` failure.
- `getSettings`, `getLogs` and `clearLogs` controller handlers: `getSettings` only returns `config.webhookUrls` (whatsapp_bot_with_webhooks_and_persistence/whatsapp_bot_project/backend/src/controllers/WebhookController.ts:40-47). `getLogs` and `clearLogs` only forward to `GetDeliveryLogs` and `ClearDeliveryLogs`.
- Message fields `deviceType`, `isGif`, `vCards`, `mentionedIds`, `groupMentions` and `links` in the forwarded details: opaque pass-through values.
- HandleClientEvent: the source's handlers close over the session object. After a session is removed and re-created under the same id, the old client would still change the orphaned object. The model routes events by id, so this aliasing is not captured.
- CreateSession: the source returns the live record, which events raised during `initialize` may already have changed. The model returns the record as inserted.
- React state, toasts, polling intervals and the rest of the dashboard are not part of this model. Only `addUrl`, `removeUrl` and `getSessionStats` are modelled.
- UrlEditor.Trim: whitespace is the fixed set JavaScript's `trim` removes, listed character by character; no other Unicode behaviour is modelled.
- Sessions.Digits: `\D` is modelled as "not an ASCII digit 0-9", which is what JavaScript's non-Unicode regular expressions mean.
