# Azure JavaScript service tutorials: the sequential glue, in Dafny

The repository is a set of TypeScript tutorials for Azure services: Service
Bus, Azure SQL, Blob Storage, Functions triggers, Azure AD authentication,
Container Apps, SignalR and Event Grid. Almost every line is an SDK call, an
Express route or console output. This project models the small sequential
logic between those calls and proves what it does:

- the Service Bus batch-send loop, modelled as written, and the receive loop
  that completes or abandons each message;
- the SQL product helpers: the partial-update builder, the pool singleton,
  parameter binding, the transaction wrapper and the batch insert;
- connection-string field extraction with the pattern `Key=([^;]+)`, the
  SignalR HS256 access token (a compact JWS serialisation, section 7.1 of
  RFC 7515, with HMAC-SHA256 from section 3.2 of RFC 7518 and base64url from
  section 5 of RFC 4648), and the negotiate and broadcast replies;
- the blob download demo: stream concatenation, the read-only SAS URL, and
  the rule that a 404 is reported while any other error ends the demo;
- the bearer-token middlewares (the `Authorization: Bearer` form of section
  2.1 of RFC 6750, scheme matched case-sensitively);
- the blob trigger's extension dispatch and record counts;
- the Event Grid webhook's handshake and event-type switch;
- the Container Apps server's shutdown gate, request counter, routes and the
  `parseInt(...) || 100` work duration (`parseInt` per section 19.2.5 of
  ECMA-262);
- the environment lookups and banner of the shared configuration helper.

SDKs, cryptography, JSON serialisation, UTF-8 decoding, the clock and
randomness are parameters of the model: function-typed values, or plain
inputs. One Dafny module per source file, plus the shared modules
`Wrappers` (Option/Result), `Text` (`split`, `join`, ASCII lowercasing),
`Json` (JSON values and property access) and `ConnectionString`.

Where code works by changing state, the model does too. Examples are the
batch and sender objects, the pool variables, the Express exchange and the
server's two module variables. Each such method is proved equal to a
specification function, and the lemmas are stated about that function.

## Model

| member | source | states |
|---|---|---|
| Json.Field | examples/12-event-grid/src/webhook-handler.ts:20 | Property access on a JSON value: a value only for an object with a field of that key, and `undefined` otherwise |
| Config.RequireEnv | shared/config.ts:18-24 | Succeeds exactly when the variable is set and non-empty, with its value; otherwise fails with "Missing required environment variable: " and the name |
| Config.GetEnv | shared/config.ts:27-29 | Never fails; the value when set and non-empty, else the default |
| Config.GetEnvOrEmpty | shared/config.ts:27-29 | With the default omitted, the result is "" exactly when the variable is unset or empty |
| Config.RequireAgreesWithGet | shared/config.ts:18-29 | A successful `requireEnv` equals `getEnv` whatever the default; when it fails `getEnv` yields the default |
| Config.ResourceGroup | shared/config.ts:33-35 | Defaults to "rg-azure-js-services", else the variable's value |
| Config.Location | shared/config.ts:36-38 | Defaults to "eastus", else the variable's value |
| Config.LogSection | shared/config.ts:60-64 | Three lines: "\n" and a rule, the title, and the same rule of exactly 50 '=' |
| ConnectionString.RunEnd | examples/11-signalr/src/server.ts:19 | The end of the maximal run of non-';' characters: at the end of the string or at a ';' |
| ConnectionString.FirstMatch | examples/11-signalr/src/server.ts:19 | The leftmost index at which `key=` followed by a non-';' character matches, or none at all |
| ConnectionString.Extract | examples/11-signalr/src/server.ts:19-20 | No value exactly when the pattern matches nowhere; a value is non-empty and contains no ';' |
| ConnectionString.ExtractIsLeftmostMaximal | examples/10-blob-storage/src/download.ts:104-105 | At the leftmost match the string reads key, '=', then exactly the value, which ends at ';' or the end |
| ConnectionString.ExtractFirstField | examples/11-signalr/src/server.ts:19-20 | A string whose first field is `key=v` yields v, whatever follows the ';' |
| ConnectionString.NotAtFieldBoundary | examples/11-signalr/src/server.ts:19 | The match need not start at a field boundary: "XEndpoint=a;Endpoint=b" yields "a" |
| SignalRServer.Startup | examples/11-signalr/src/server.ts:13-25 | Fails exactly when the variable is unset or either field cannot be extracted; the fields found are non-empty and contain no ';' |
| SignalRServer.StartupReadsFields | examples/11-signalr/src/server.ts:19-25 | A connection string in the service's field order yields its endpoint and access key |
| SignalRServer.AccessKeyAfterEndpoint | examples/11-signalr/src/server.ts:20 | `AccessKey` is found behind an endpoint with no '=': nothing earlier matches |
| SignalRServer.Payload | examples/11-signalr/src/server.ts:31-41 | The claims object: `aud` the hub URL, `exp` one hour past the current second, and `nameid` only for a truthy user id |
| SignalRServer.AccessToken | examples/11-signalr/src/server.ts:30-48 | `generateAccessToken`: base64url header "." base64url payload "." the HS256 signature of the two, keyed by the access key |
| SignalRServer.HubUrl | examples/11-signalr/src/server.ts:53 | The client hub URL: the endpoint, "/client/?hub=" and the hub name "chat" |
| SignalRServer.BroadcastUrl | examples/11-signalr/src/server.ts:190 | The REST URL: the endpoint, "/api/v1/hubs/" and the hub name "chat" |
| SignalRServer.Negotiate | examples/11-signalr/src/server.ts:51-60 | The `/negotiate` reply: the client URL and a token for it whose user id is "user-" and the random suffix |
| SignalRServer.BroadcastCall | examples/11-signalr/src/server.ts:185-203 | The REST request: the hub's REST URL, "Bearer " and a token for it, and a body with target "newMessage" and arguments "Anonymous" and the message, `null` when absent |
| SignalRServer.BroadcastReply | examples/11-signalr/src/server.ts:205-213 | The reply: `success: true` for a 2xx status, otherwise 500 "Failed to broadcast" |
| SignalRServer.PayloadClaims | examples/11-signalr/src/server.ts:31-41 | `aud` is the hub URL; `exp` is floor(now/1000)+3600; `nameid` is present exactly for a non-empty user id, with its value |
| SignalRServer.TokenSegments | examples/11-signalr/src/server.ts:43-47 | Splitting the token at '.' gives exactly the encoded header, the encoded payload, and the signature over the two joined by '.' |
| SignalRServer.NegotiateReply | examples/11-signalr/src/server.ts:51-60 | The reply's url is endpoint + "/client/?hub=chat"; its token is for that URL and carries the generated `nameid` |
| SignalRServer.BroadcastAudience | examples/11-signalr/src/server.ts:184-203 | The call goes to endpoint + "/api/v1/hubs/chat" with "Bearer " and a token whose `aud` is that URL, with no `nameid`, and target "newMessage" |
| SignalRServer.BroadcastSucceedsIff | examples/11-signalr/src/server.ts:205-213 | 200 with `success: true` exactly for a 2xx upstream status; otherwise 500 "Failed to broadcast" |
| ServiceBusSender.OrderToMessage | examples/02-service-bus/src/sender.ts:104-112 | Body is the order; messageId is orderId; priority is "high" exactly when totalAmount > 500, else "normal" |
| ServiceBusSender.Messages | examples/02-service-bus/src/sender.ts:103-112 | One message per order, at the same position |
| ServiceBusSender.MessageBatch.constructor | examples/02-service-bus/src/sender.ts:101 | A new batch is empty |
| ServiceBusSender.MessageBatch.TryAddMessage | examples/02-service-bus/src/sender.ts:115 | Appends exactly when the capacity predicate accepts, and reports it |
| ServiceBusSender.Sender.constructor | examples/02-service-bus/src/sender.ts:40 | Nothing has been sent |
| ServiceBusSender.Sender.CreateMessageBatch | examples/02-service-bus/src/sender.ts:121 | A fresh, empty batch with the sender's capacity |
| ServiceBusSender.Sender.SendMessages | examples/02-service-bus/src/sender.ts:117 | Appends the batch's contents to the log of sends |
| ServiceBusSender.StepAsWritten | examples/02-service-bus/src/sender.ts:103-126 | One turn as written: a fitting message joins the batch; otherwise the batch is sent, stays the batch, and the run stops if the message fits no empty batch |
| ServiceBusSender.LoopAsWritten | examples/02-service-bus/src/sender.ts:103-126 | The loop as written over the messages in order, from no sends and an empty batch |
| ServiceBusSender.Flushed | examples/02-service-bus/src/sender.ts:128-132 | The final flush: the batch is sent only when non-empty and the loop did not throw |
| ServiceBusSender.SendsAsWritten | examples/02-service-bus/src/sender.ts:100-132 | Every `sendMessages` call of the loop as written and its flush, in order |
| ServiceBusSender.StepIntended | examples/02-service-bus/src/sender.ts:114-125 | One turn where a rejected message opens the fresh batch that replaces the sent one |
| ServiceBusSender.LoopIntended | examples/02-service-bus/src/sender.ts:103-126 | The loop with the replacing accumulator over the messages in order |
| ServiceBusSender.SendsIntended | examples/02-service-bus/src/sender.ts:100-132 | Every send of the replacing loop, with its flush, in order |
| ServiceBusSender.OfferAsWritten | examples/02-service-bus/src/sender.ts:114-125 | One turn as written: on rejection the first batch is sent and stays the batch; the fresh batch is dropped; the call fails when the message fits no batch |
| ServiceBusSender.FlushIfNonEmpty | examples/02-service-bus/src/sender.ts:128-132 | Sends the batch exactly when it is non-empty |
| ServiceBusSender.StoppedAsWritten | examples/02-service-bus/src/sender.ts:122-124 | Once the loop has thrown, later messages change nothing |
| ServiceBusSender.SendOrderBatch | examples/02-service-bus/src/sender.ts:100-132 | The sends are those of the loop as written; it fails with "Message too large for batch" exactly when a message fits no batch |
| ServiceBusSender.AllFitNoLoopSend | examples/02-service-bus/src/sender.ts:101-126 | If every message fits the growing first batch, nothing is sent in the loop and the batch holds all messages in order |
| ServiceBusSender.AllFitOneSend | examples/02-service-bus/src/sender.ts:101-132 | Then exactly one send happens, holding all messages in order, or none for no messages |
| ServiceBusSender.LoopSendsArePrefixes | examples/02-service-bus/src/sender.ts:115-121 | Every batch sent inside the loop is a prefix of the batch later messages are offered to |
| ServiceBusSender.EverySendIsFirstBatchPrefix | examples/02-service-bus/src/sender.ts:115-132 | Every send, including the flush, is a prefix of the first batch's final contents |
| ServiceBusSender.BatchDrawnFromPrefix | examples/02-service-bus/src/sender.ts:103-115 | Everything in the first batch is one of the messages offered |
| ServiceBusSender.RejectedMessageNeverInFirstBatch | examples/02-service-bus/src/sender.ts:121-132 | A message the first batch rejects, equal to no other, never reaches the only batch that is sent |
| ServiceBusSender.LoopSendsNoEmptyBatch | examples/02-service-bus/src/sender.ts:115-124 | A run that does not throw sends no empty batch inside the loop |
| ServiceBusSender.CompletedRunSendsNoEmptyBatch | examples/02-service-bus/src/sender.ts:115-132 | A run that does not throw sends no empty batch at all |
| ServiceBusSender.NoAbortWhenEachFitsAlone | examples/02-service-bus/src/sender.ts:121-124 | If each message fits an empty batch, the loop never throws |
| ServiceBusSender.OversizedFirstMessage | examples/02-service-bus/src/sender.ts:115-124 | A first message that fits no batch makes the loop send the empty first batch, then throw |
| ServiceBusSender.IntendedKeepsEveryMessage | examples/02-service-bus/src/sender.ts:114-128 | Under the replacing accumulator, the sent batches and the open batch hold exactly the messages offered, in order |
| ServiceBusSender.IntendedSendsEverythingInOrder | examples/02-service-bus/src/sender.ts:114-132 | Under the replacing accumulator, the sends concatenate to exactly the messages submitted, and no send is empty |
| ServiceBusSender.IntendedSendsNoEmptyBatch | examples/02-service-bus/src/sender.ts:114-126 | Under the replacing accumulator, a batch is sent only when it already holds a message |
| ServiceBusSender.OfferIntended | examples/02-service-bus/src/sender.ts:114-125 | One turn where the fresh batch holding the rejected message replaces the first |
| ServiceBusSender.StoppedIntended | examples/02-service-bus/src/sender.ts:122-124 | Once the replacing loop has thrown, later messages change nothing |
| ServiceBusSender.SendOrderBatchIntended | examples/02-service-bus/src/sender.ts:100-132 | The object-level loop with the replacing accumulator sends exactly `SendsIntended` |
| ServiceBusSender.ThreeMessagesTwoPerBatch | examples/02-service-bus/src/sender.ts:115-132 | With a two-message limit, [a,b,c] is sent as [a,b],[a,b] as written, and as [a,b],[c] intended |
| ServiceBusReceiver.ProcessingFails | examples/02-service-bus/src/receiver.ts:155-163 | `simulateProcessing` throws exactly when the order id contains "FAIL" |
| ServiceBusReceiver.Settle | examples/02-service-bus/src/receiver.ts:77-105 | One message: complete it when processing succeeds; abandon it with the error when processing or completion throws; an abandon failure ends the loop |
| ServiceBusReceiver.SettleFirst | examples/02-service-bus/src/receiver.ts:77-106 | The loop after the first k received messages, from a zero count and no calls |
| ServiceBusReceiver.FailAnywhere | examples/02-service-bus/src/receiver.ts:160-162 | "FAIL" anywhere in the order id makes processing fail |
| ServiceBusReceiver.NoFNoFailure | examples/02-service-bus/src/receiver.ts:160-162 | An id without an upper-case 'F' never fails |
| ServiceBusReceiver.StaysThrown | examples/02-service-bus/src/receiver.ts:96-105 | After an uncaught abandon failure, later messages change nothing |
| ServiceBusReceiver.ProcessMessages | examples/02-service-bus/src/receiver.ts:67-106 | The loop's count, calls and thrown error are those of the per-message settle rule over the batch |
| ServiceBusReceiver.ProcessedAtMostReceived | examples/02-service-bus/src/receiver.ts:67-94 | `processedCount` never exceeds the number of messages handled |
| ServiceBusReceiver.ProcessedIsCompleted | examples/02-service-bus/src/receiver.ts:89-94 | While nothing is thrown, the count is the number of messages whose processing and completion both succeeded |
| ServiceBusReceiver.CallsFor | examples/02-service-bus/src/receiver.ts:77-105 | Each message gets one or two settle calls |
| ServiceBusReceiver.SettledInOrder | examples/02-service-bus/src/receiver.ts:77-106 | Messages are settled in received order; a failing order is abandoned and never completed; others are completed, then abandoned only if completion threw |
| ServiceBusReceiver.Receive | examples/02-service-bus/src/receiver.ts:37-152 | An empty peek receives nothing and closes twice; otherwise peek, receive ten, settle, peek the dead-letter queue unless thrown, close the dead-letter receiver unless that peek rejected, then close; a rejected dead-letter peek is the error returned |
| ServiceBusReceiver.DeadLetterPeekRejected | examples/02-service-bus/src/receiver.ts:115-149 | A rejected dead-letter peek skips the dead-letter receiver's close; the receiver and client closes of the `finally` follow it |
| ServiceBusReceiver.LoopOnlySettles | examples/02-service-bus/src/receiver.ts:77-106 | The loop makes only complete and abandon calls |
| ServiceBusReceiver.ReceiveAtMostTen | examples/02-service-bus/src/receiver.ts:68-73 | At most one receive, at position 1, asking for ten; none after an empty peek |
| ServiceBusReceiver.ClosesLast | examples/02-service-bus/src/receiver.ts:147-150 | The receiver and then the client are the last things closed |
| ServiceBusReceiver.FailingOrderAbandoned | examples/02-service-bus/src/receiver.ts:96-104 | A failing order is abandoned with the simulated failure and not counted |
| SqlDb.GetPoolStep | examples/01-sql-database/src/db.ts:30-36 | `getPool`: return the held pool; else connect, keeping the new pool only when connecting succeeds |
| SqlDb.ClosePoolStep | examples/01-sql-database/src/db.ts:41-47 | `closePool`: close and clear a held pool, keeping it when `close()` throws; nothing without a pool |
| SqlDb.QuerySpec | examples/01-sql-database/src/db.ts:52-67 | `query`: `getPool`, then one statement with the bound inputs on that pool, or the connect error with nothing sent |
| SqlDb.RollBack | examples/01-sql-database/src/db.ts:83-86 | The catch block: a rollback call, then the caught error rethrown, or the rollback's own error when it rejects |
| SqlDb.Transaction | examples/01-sql-database/src/db.ts:72-87 | `transaction`: `getPool` outside the `try`; begin, operations, commit; any failure inside rolls back and rethrows, or throws the rollback's error |
| SqlDb.PoolStepsKeepValid | examples/01-sql-database/src/db.ts:25-47 | `getPool` and `closePool` keep every named pool one opened by an earlier attempt |
| SqlDb.GetPoolTwice | examples/01-sql-database/src/db.ts:30-36 | After a successful `getPool` a pool is held, and calling it again connects no more and returns the same pool |
| SqlDb.GetPoolConnectsOnlyWhenEmpty | examples/01-sql-database/src/db.ts:31-32 | A connection is attempted exactly when no pool is held |
| SqlDb.CloseWithoutPool | examples/01-sql-database/src/db.ts:41-47 | With no pool held, `closePool` changes nothing |
| SqlDb.CloseThenReconnect | examples/01-sql-database/src/db.ts:30-46 | After a successful close, the next `getPool` connects anew and returns a pool used by no earlier call |
| SqlDb.Request.constructor | examples/01-sql-database/src/db.ts:57 | A new request has no inputs |
| SqlDb.Request.Input | examples/01-sql-database/src/db.ts:62 | Appends one input under its key |
| SqlDb.QuerySendsOnce | examples/01-sql-database/src/db.ts:52-67 | A query sends at most one statement, with the given inputs, on the pool `getPool` returned; a failing `getPool` sends nothing and is the error |
| SqlDb.Database.constructor | examples/01-sql-database/src/db.ts:25 | No pool, no attempts, nothing executed |
| SqlDb.Database.GetPool | examples/01-sql-database/src/db.ts:30-36 | New state and result are those of the `getPool` step |
| SqlDb.Database.ClosePool | examples/01-sql-database/src/db.ts:41-47 | New state and result are those of the `closePool` step |
| SqlDb.Database.Query | examples/01-sql-database/src/db.ts:52-67 | Every entry of `params` is bound once, in order, and none when omitted; the statement is sent once on the pool |
| SqlDb.TransactionSucceedsIff | examples/01-sql-database/src/db.ts:72-87 | Succeeds exactly when the pool, begin, the operations and commit succeed, with the operations' result and no rollback |
| SqlDb.TransactionFailureRollsBack | examples/01-sql-database/src/db.ts:83-86 | A failure after the pool ends in exactly one rollback and rethrows the first error, or the rollback's own error |
| SqlCrud.UpdateStatement | examples/01-sql-database/src/crud.ts:109-112 | "UPDATE Products SET ", the clauses joined by ", ", and " WHERE id = @id" |
| SqlCrud.UpdateClauses | examples/01-sql-database/src/crud.ts:91-105 | The SET clauses, one per defined field, in the order name, price, category |
| SqlCrud.UpdateParams | examples/01-sql-database/src/crud.ts:92-105 | The parameters: `id`, then each defined field under its own key |
| SqlCrud.RowsChanged | examples/01-sql-database/src/crud.ts:114 | `rowsAffected[0] > 0`, false when the entry is missing; query errors pass through |
| SqlCrud.InsertFirst | examples/01-sql-database/src/crud.ts:131-146 | The operations callback after the first k products: the ids so far, or the first insert's error |
| SqlCrud.UpdateClausesFollowFields | examples/01-sql-database/src/crud.ts:94-107 | A clause is present exactly when its field is defined, in the order name, price, category; none exactly when no field is defined |
| SqlCrud.UpdateParamsFollowFields | examples/01-sql-database/src/crud.ts:92-105 | Parameters start with `id`, bind each defined field to its value and nothing else, and have distinct keys |
| SqlCrud.FullUpdateStatement | examples/01-sql-database/src/crud.ts:109-112 | All three fields give "UPDATE Products SET name = @name, price = @price, category = @category WHERE id = @id" |
| SqlCrud.SingleFieldStatement | examples/01-sql-database/src/crud.ts:109-112 | A single field gives its clause with no separator |
| SqlCrud.BuildUpdate | examples/01-sql-database/src/crud.ts:91-105 | The arrays grown field by field equal the clause and parameter specifications |
| SqlCrud.UpdateProduct | examples/01-sql-database/src/crud.ts:87-115 | With no defined field: false and no query; otherwise one query, true exactly when the first rowsAffected entry is positive |
| SqlCrud.DeleteProduct | examples/01-sql-database/src/crud.ts:120-123 | One DELETE by id; true exactly when the first rowsAffected entry is positive |
| SqlCrud.FirstRow | examples/01-sql-database/src/crud.ts:70 | The first row, or null exactly when the result set is empty; query errors pass through |
| SqlCrud.GetProductById | examples/01-sql-database/src/crud.ts:65-71 | One SELECT by id whose result is the first row or null |
| SqlCrud.InsertedId | examples/01-sql-database/src/crud.ts:49 | The first row's `id`; reading it from an empty result throws |
| SqlCrud.CreateProduct | examples/01-sql-database/src/crud.ts:37-50 | One INSERT, the statement `InsertStatement` of lines 39-41, with name, price and category, returning the inserted id |
| SqlCrud.InsertFirstIds | examples/01-sql-database/src/crud.ts:131-146 | On success one id per product in order; on failure the first insert that failed, after all earlier ones succeeded |
| SqlCrud.InsertEach | examples/01-sql-database/src/crud.ts:132-145 | One request per product reached, binding its fields, stopping at the first failure |
| SqlCrud.FailedStaysFailed | examples/01-sql-database/src/crud.ts:131-146 | After a failed insert, later products change nothing |
| SqlCrud.BatchInsertProducts | examples/01-sql-database/src/crud.ts:128-149 | The transaction's calls and result are those of `transaction` around the insert loop; no request before a successful begin; one request per product when every insert succeeds, else requests up to and including the failing insert |
| SqlCrud.BatchReturnsIdsInOrder | examples/01-sql-database/src/crud.ts:128-149 | When every step succeeds, one id per product in input order |
| BlobDownload.Concat | examples/10-blob-storage/src/download.ts:93 | `Buffer.concat`: the chunks one after another |
| BlobDownload.GenerateSasUrl | examples/10-blob-storage/src/download.ts:97-126 | Throws on an unset variable or a missing account name or key; else blob URL + "?" + the read-only query expiring an hour after now |
| BlobDownload.TextStep | examples/10-blob-storage/src/download.ts:13-18 | Step 1: the decoded concatenation of the downloaded chunks, or the download's error |
| BlobDownload.JsonStep | examples/10-blob-storage/src/download.ts:27-33 | Step 2: the parsed JSON; a failed parse is a syntax error without a status code; or the download's error |
| BlobDownload.PropertiesStep | examples/10-blob-storage/src/download.ts:43-50 | Step 3: the blob's properties, or the error of `getProperties` |
| BlobDownload.BufferStep | examples/10-blob-storage/src/download.ts:60-64 | Step 4: the size of the downloaded buffer, or the download's error |
| BlobDownload.SasFor | examples/10-blob-storage/src/download.ts:115-121 | The SAS values: the container, the blob, permission "r", and expiry one hour after now |
| BlobDownload.Preview | examples/10-blob-storage/src/download.ts:76 | The first 80 characters of the URL (all of a shorter one), then "..." |
| BlobDownload.SasReport | examples/10-blob-storage/src/download.ts:73-80 | Step 5's report: the preview on success, the account-key note on any error |
| BlobDownload.RunDownloads | examples/10-blob-storage/src/download.ts:11-69 | Steps 1-4 in order: a success shows its detail, a 404 reports "not found", any other error ends the demo |
| BlobDownload.RunSteps | examples/10-blob-storage/src/download.ts:3-85 | The download steps, then the SAS step whose failure is always caught |
| BlobDownload.ConcatAppend | examples/10-blob-storage/src/download.ts:93 | Concatenation respects splitting the chunk list anywhere |
| BlobDownload.ConcatPlacesChunks | examples/10-blob-storage/src/download.ts:89-93 | Every chunk appears whole, after all bytes of the chunks before it |
| BlobDownload.StreamToString | examples/10-blob-storage/src/download.ts:88-94 | The decoded concatenation of the chunks in arrival order |
| BlobDownload.SasUrlShape | examples/10-blob-storage/src/download.ts:97-126 | Fails exactly for an unset variable or a missing field, with each error; otherwise blob URL + "?" + a read-only query expiring 3600000 ms after now |
| BlobDownload.EmptyConnectionString | examples/10-blob-storage/src/download.ts:103-109 | An empty connection string gives "Cannot parse connection string" |
| BlobDownload.DownloadsStopAtFirstOtherError | examples/10-blob-storage/src/download.ts:14-69 | The first error other than a 404 ends the download steps, after one report per earlier step |
| BlobDownload.DemoStopsAtFirstOtherError | examples/10-blob-storage/src/download.ts:3-85 | The demo rethrows that first error after the earlier steps' reports, with no SAS report |
| BlobDownload.DownloadsComplete | examples/10-blob-storage/src/download.ts:14-69 | With only successes and 404s, one report per step: its detail or "not found" |
| BlobDownload.DemoCompletes | examples/10-blob-storage/src/download.ts:3-85 | Then the demo completes, adding a SAS report that is "unavailable" exactly when generation failed |
| BlobDownload.ThrownComesFromAStep | examples/10-blob-storage/src/download.ts:73-80 | A rethrown error always comes from a download step, never from the SAS step |
| BlobDownload.Attempt | examples/10-blob-storage/src/download.ts:19-23 | Success shows the detail; a 404 reports "not found"; any other error is rethrown |
| BlobDownload.DownloadText | examples/10-blob-storage/src/download.ts:13-18 | Step 1's outcome: the decoded stream, or the download's error |
| BlobDownload.DownloadJson | examples/10-blob-storage/src/download.ts:27-33 | Step 2's outcome: the parsed JSON, a status-less syntax error, or the download's error |
| BlobDownload.DownloadDemo | examples/10-blob-storage/src/download.ts:3-85 | Reports and rethrown error equal the demo's specification over the four steps and the SAS step |
| AuthMiddleware.Issuer | examples/04-authentication/src/authMiddleware.ts:69 | "https://login.microsoftonline.com/", the tenant id, then "/v2.0" |
| AuthMiddleware.MissingHeaderBody | examples/04-authentication/src/authMiddleware.ts:56 | The 401 body for a missing or non-Bearer header |
| AuthMiddleware.InvalidTokenBody | examples/04-authentication/src/authMiddleware.ts:74 | The 401 body for a token that fails verification, with the error's message as `details` |
| AuthMiddleware.Options | examples/04-authentication/src/authMiddleware.ts:66-70 | The verification options: RS256 only, the client id as audience, the tenant's v2.0 issuer |
| AuthMiddleware.OptionalAuthUser | examples/04-authentication/src/authMiddleware.ts:100-127 | The user `optionalAuth` attaches: none without a Bearer token or when verification fails, else the payload's user |
| AuthMiddleware.IssuerNamesOneTenant | examples/04-authentication/src/authMiddleware.ts:69 | The issuer names exactly one tenant |
| AuthMiddleware.BearerToken | examples/04-authentication/src/authMiddleware.ts:55-60 | A token exactly when the header starts with "Bearer "; the header is then "Bearer " + token |
| AuthMiddleware.BearerTokenIff | examples/04-authentication/src/authMiddleware.ts:55-60 | A header yields token t exactly when it is "Bearer " + t |
| AuthMiddleware.LowercaseSchemeRejected | examples/04-authentication/src/authMiddleware.ts:55 | "bearer " is refused: the scheme is case-sensitive |
| AuthMiddleware.UserOf | examples/04-authentication/src/authMiddleware.ts:80-85 | sub, name and roles are copied; email is preferred_username when truthy, else email |
| AuthMiddleware.EmailFromToken | examples/04-authentication/src/authMiddleware.ts:83 | The email is one the token states; an empty preferred_username never wins over an email |
| AuthMiddleware.RequireAuthDecision | examples/04-authentication/src/authMiddleware.ts:53-89 | Every refusal is a 401 |
| AuthMiddleware.RequireAuthAcceptsIff | examples/04-authentication/src/authMiddleware.ts:55-87 | Accepted exactly when the header is "Bearer " + a token that verifies against RS256, the client id and the tenant's issuer; the user is then that payload's |
| AuthMiddleware.OptionalAgreesWithRequire | examples/04-authentication/src/authMiddleware.ts:100-129 | `optionalAuth` attaches a user exactly when `requireAuth` accepts, and the same user |
| AuthMiddleware.Exchange.constructor | examples/04-authentication/src/authMiddleware.ts:48-52 | No user, no response, `next` not called |
| AuthMiddleware.Exchange.Respond | examples/04-authentication/src/authMiddleware.ts:56 | Sets status and body; nothing else changes |
| AuthMiddleware.Exchange.Next | examples/04-authentication/src/authMiddleware.ts:87 | Counts one call of `next`; nothing else changes |
| AuthMiddleware.RequireAuth | examples/04-authentication/src/authMiddleware.ts:48-90 | A refusal sends its 401 and never calls `next`; an acceptance attaches the user and calls `next` once, sending nothing |
| AuthMiddleware.OptionalAuth | examples/04-authentication/src/authMiddleware.ts:95-130 | Calls `next` exactly once and sends nothing; attaches a user only for a token that verifies |
| BlobTrigger.Extension | examples/03-functions-triggers/src/blobTrigger.ts:48 | The text after the last '.', lowercased |
| BlobTrigger.HandlerFor | examples/03-functions-triggers/src/blobTrigger.ts:50-64 | The `switch`: json, csv, and jpg, jpeg or png pick their handler; anything else is skipped |
| BlobTrigger.Dispatch | examples/03-functions-triggers/src/blobTrigger.ts:48-64 | The branch a blob name takes: the switch applied to its extension |
| BlobTrigger.CsvRecordCount | examples/03-functions-triggers/src/blobTrigger.ts:90-91 | Pieces of the text split at '\n', less one for the header |
| BlobTrigger.ProcessBlob | examples/03-functions-triggers/src/blobTrigger.ts:43-107 | `processBlob`: records of a parsed JSON file, CSV rows, the image size, or skipped; a JSON file that does not parse throws |
| BlobTrigger.LastPiece | examples/03-functions-triggers/src/blobTrigger.ts:48 | The last piece of a split is the text after the last separator |
| BlobTrigger.ExtensionAfterLastDot | examples/03-functions-triggers/src/blobTrigger.ts:48 | The extension is the text after the last '.', lowercased; a trailing '.' gives "" |
| BlobTrigger.ExtensionWithoutDot | examples/03-functions-triggers/src/blobTrigger.ts:48 | A name without '.' is its own extension, lowercased |
| BlobTrigger.ExtensionIgnoresCase | examples/03-functions-triggers/src/blobTrigger.ts:48 | Lowercasing the name does not change the extension |
| BlobTrigger.DispatchIgnoresCase | examples/03-functions-triggers/src/blobTrigger.ts:48-64 | Names differing only in case take the same branch |
| BlobTrigger.DispatchByExtension | examples/03-functions-triggers/src/blobTrigger.ts:50-64 | json, csv and jpg/jpeg/png in any case pick their handler; any other extension is skipped |
| BlobTrigger.CsvRecordCountIsLineBreaks | examples/03-functions-triggers/src/blobTrigger.ts:90-91 | The CSV count, pieces minus one, is the number of '\n' |
| BlobTrigger.JsonRecordCount | examples/03-functions-triggers/src/blobTrigger.ts:75 | An array counts its items; anything else is one record (stated by ProcessBlobOutcome) |
| BlobTrigger.ProcessBlobOutcome | examples/03-functions-triggers/src/blobTrigger.ts:43-112 | Fails exactly for a JSON file that does not parse; a parsed array counts its items and any other JSON value one record; a CSV file counts its line breaks, an image its bytes, and an unknown type is skipped with its extension |
| BlobTrigger.HandleBlob | examples/03-functions-triggers/src/blobTrigger.ts:30-39 | The handler fails exactly when processing does, rethrowing the same error |
| EventGridWebhook.IsHandshake | examples/12-event-grid/src/webhook-handler.ts:19 | The batch is a handshake exactly when it has a first event whose type is the subscription validation type |
| EventGridWebhook.HandlerFor | examples/12-event-grid/src/webhook-handler.ts:39-60 | The `switch`: six named handlers, and the default branch for any other type |
| EventGridWebhook.HandshakeReply | examples/12-event-grid/src/webhook-handler.ts:20-26 | The validation code echoed as `validationResponse`; null data throws, and a missing code is dropped |
| EventGridWebhook.CallFor | examples/12-event-grid/src/webhook-handler.ts:39-60 | The handler an event reaches, with the event's data |
| EventGridWebhook.HandlerThrows | examples/12-event-grid/src/webhook-handler.ts:70-104 | A named handler reads a property of its data, so it throws exactly for null or absent data |
| EventGridWebhook.HandlerForIsOneToOne | examples/12-event-grid/src/webhook-handler.ts:39-60 | The default branch is taken exactly for types outside the six; distinct types get distinct handlers |
| EventGridWebhook.ValidationTypeIsUnknown | examples/12-event-grid/src/webhook-handler.ts:39-60 | The handshake type has no case of its own in the switch |
| EventGridWebhook.HandleEvents | examples/12-event-grid/src/webhook-handler.ts:10-104 | A handshake at position 0 answers the validation code and dispatches nothing; otherwise events are dispatched in order until a named handler gets null data, which ends the batch with an error response; with none such every event is dispatched and the reply is 200 "OK" |
| EventGridWebhook.NullDataStopsBatch | examples/12-event-grid/src/webhook-handler.ts:40-42 | An `Order.Created` event without data yields the error response and keeps the event after it from being dispatched |
| EventGridWebhook.LateHandshakeIsUnknown | examples/12-event-grid/src/webhook-handler.ts:19-59 | A validation event after position 0 falls to the default branch |
| EventGridWebhook.CallsMatchTypes | examples/12-event-grid/src/webhook-handler.ts:30-61 | An event reaches a named handler exactly when its type is one of the six, with its own data |
| ContainerAppServer.IsSpace | examples/05-container-apps/src/server.ts:96 | The characters `parseInt` skips: the ECMAScript white space and line terminators |
| ContainerAppServer.TrimStart | examples/05-container-apps/src/server.ts:96 | Removes exactly the leading white space: everything removed is white space and the rest starts with none |
| ContainerAppServer.DigitValue | examples/05-container-apps/src/server.ts:96 | '0'-'9' are 0-9, letters of either case are 10-35, and 36 exactly for a character that is no digit |
| ContainerAppServer.DigitPrefix | examples/05-container-apps/src/server.ts:96 | The longest prefix of digits of the radix |
| ContainerAppServer.ParseInt | examples/05-container-apps/src/server.ts:96 | `parseInt` without a radix: skip white space, read a sign, then a hex or decimal digit prefix; no digit is NaN |
| ContainerAppServer.WorkDuration | examples/05-container-apps/src/server.ts:96 | `parseInt(ms) || 100`: NaN and zero give 100, an absent parameter reads as "undefined" |
| ContainerAppServer.ParseIntDecimal | examples/05-container-apps/src/server.ts:96 | `parseInt` reads back the decimal form of every natural number |
| ContainerAppServer.ParseIntNoDigit | examples/05-container-apps/src/server.ts:96 | Text starting with no space, sign or digit is NaN |
| ContainerAppServer.ParseUnsignedDecimal | examples/05-container-apps/src/server.ts:96 | A positive number's decimal form, followed by a non-digit, reads as that number |
| ContainerAppServer.WorkDurationCases | examples/05-container-apps/src/server.ts:96 | A positive number is used as given; "0", a missing parameter and non-numeric text give 100 |
| ContainerAppServer.WorkDurationSkipsSpace | examples/05-container-apps/src/server.ts:96 | Leading white space is skipped before the number |
| ContainerAppServer.Step | examples/05-container-apps/src/server.ts:23-30 | A request is counted only before shutdown; a signal raises the flag (line 128) |
| ContainerAppServer.After | examples/05-container-apps/src/server.ts:18-30 | The state after a sequence of requests and signals, from the initial state |
| ContainerAppServer.ShutdownIsFinal | examples/05-container-apps/src/server.ts:23-30 | Once shutting down, no request or signal changes the state |
| ContainerAppServer.RequestsAllCounted | examples/05-container-apps/src/server.ts:23-29 | Before any signal every request is counted once |
| ContainerAppServer.ShuttingDownIffSignalled | examples/05-container-apps/src/server.ts:121-128 | The flag is raised exactly when a signal has arrived |
| ContainerAppServer.CountStopsAtFirstSignal | examples/05-container-apps/src/server.ts:23-30 | The final count is the number of requests before the first signal |
| ContainerAppServer.UptimeSeconds | examples/05-container-apps/src/server.ts:39 | The whole seconds elapsed, rounded down |
| ContainerAppServer.EnvField | examples/05-container-apps/src/server.ts:71-76 | An environment variable as an object field, left out when unset, as `JSON.stringify` drops `undefined` |
| ContainerAppServer.RouteResponse | examples/05-container-apps/src/server.ts:36-107 | Each route's response from the state, the environment and the clock; an unmatched path gets Express's 404 |
| ContainerAppServer.Serve | examples/05-container-apps/src/server.ts:23-30 | The middleware: 503 during shutdown, else the route's response with the count already raised |
| ContainerAppServer.UnmatchedIsCountedNotFound | examples/05-container-apps/src/server.ts:23-30 | A path no route answers is counted and answered 404 naming method and path, or 503 during shutdown |
| ContainerAppServer.ReadyNeverNotReady | examples/05-container-apps/src/server.ts:23-51 | `/ready` is never "not ready": 200 "ready" before shutdown, the middleware's 503 after |
| ContainerAppServer.InfoCountsItself | examples/05-container-apps/src/server.ts:64-83 | `/info` reports a count that includes the request itself |
| ContainerAppServer.Server.constructor | examples/05-container-apps/src/server.ts:18-20 | Not shutting down, no requests, started now |
| ContainerAppServer.Server.Handle | examples/05-container-apps/src/server.ts:23-107 | The state takes one request step; the response is 503 during shutdown, else the route's with the raised count |
| ContainerAppServer.Server.GracefulShutdown | examples/05-container-apps/src/server.ts:121-151 | Raises the flag and leaves the count |
| Text.Split | examples/03-functions-triggers/src/blobTrigger.ts:48 | `split` on one separator character never returns an empty array, so `pop` always yields a piece |
| Text.SplitPiecesFree | examples/03-functions-triggers/src/blobTrigger.ts:48 | No piece of a split contains the separator |
| Text.SplitLength | examples/03-functions-triggers/src/blobTrigger.ts:90-91 | The number of pieces is one more than the separators |
| Text.JoinSplit | examples/11-signalr/src/server.ts:47 | Splitting separator-free parts joined by the separator gives them back |
| Text.SplitJoin | examples/11-signalr/src/server.ts:47 | Joining the pieces of a split gives the string back |
| Text.Lower | examples/03-functions-triggers/src/blobTrigger.ts:48 | `toLowerCase` character by character, keeping the length |
| Text.LowerIdempotent | examples/03-functions-triggers/src/blobTrigger.ts:48 | Lowercasing twice is lowercasing once |

## Left out

- SDK internals (Service Bus, mssql, Blob Storage, SignalR service, Azure Functions host): batch limits, query results, settle failures, HTTP statuses and 404s are inputs or function parameters.
- Cryptography and encodings: HMAC-SHA256, RS256 signatures and the JWKS key lookup, JSON serialisation and parsing, base64url and UTF-8 decoding are uninterpreted functions. Lowercasing is ASCII-only.
- The clock, `toISOString`, `Math.random()`, `process.version` and `process.memoryUsage()` are inputs or absent. `/info` leaves out `memoryUsage`.
- Logging and console output, except the banner lines of `logSection`.
- `setTimeout` pauses, the 30-second forced exit, `server.close`, `process.exit`, `listen` and signal registration.
- Concurrency: async interleavings, such as two `getPool` calls both seeing no pool.
- `loadEnv` in `shared/config.ts` is file I/O.
- The sender's single message and scheduled message (lines 57-67 and 137-160 of `sender.ts`) are single SDK calls.
- The receiver's peek listings and dead-letter listing only print; the dead-letter count is an input.
- `getAllProducts`, `getProductsByCategory`, `initializeSchema` and `clearProducts` in `crud.ts` are single queries passed through unchanged.
- The blob download demo's file names other than `hello.txt` are not modelled; each step's outcome is an input.
- `express.json` body-parse errors are out, and so is an Event Grid body that is not an array or that holds an element that is not an object (reading `event.eventType` on `null` throws, and Express answers 500).
- Json.Field: objects are taken to have distinct keys. For a parsed body that repeats a key, `JSON.parse` keeps the last value, while the model reads the first.
- ServiceBusSender.SendOrderBatch: `createMessageBatch` and `sendMessages` (lines 101, 117, 121 and 130 of `sender.ts`) never reject in the model, so the only failure is "Message too large for batch". A rejection would leave the loop, skip the flush and run only the `finally`.
- ServiceBusReceiver.Receive: the first `peekMessages` and `receiveMessages` (lines 48 and 71 of `receiver.ts`) and every `close()` (lines 59-60, 127 and 148-149) never reject in the model; the peeked and received messages are inputs. The dead-letter `peekMessages` of line 115 may reject and is modelled.
- Express's query parsing is reduced to the string `parseInt` receives: a repeated `ms` arrives joined by ',', which the caller of `ContainerAppServer.Server.Handle` supplies as that string. The 404 page's HTML is reduced to its text.
- BlobDownload.DownloadDemo: takes `generateSasUrl` as a function parameter. It is `GenerateSasUrl` with the environment, container, clock and signer fixed, so the demo's contract does not restate the URL's shape; `SasUrlShape` states that separately.
- AuthMiddleware.RequireAuth: assumes verification that reports no error always supplies a payload. The source's `decoded &&` test in `optionalAuth` and a missing `sub` are therefore not distinguished.
- ContainerAppServer.WorkDuration: integers are unbounded. Precision loss beyond 2^53, a result of `Infinity`, and `setTimeout`'s clamping of very large or negative delays are not modelled.
- SignalRServer.Payload: `exp` is computed for a non-negative clock only.
- Money and time values are opaque (`price` as a real passed through; `totalAmount` only compared with 500). JSON numbers are integers.

## Findings

| source | as written | input that shows it | evidently intended | confidence | as-written member | corrected member |
|---|---|---|---|---|---|---|
| examples/02-service-bus/src/sender.ts:121-132 | `newBatch` is local to the `if` block. Later messages are still offered to the first batch, the message added to `newBatch` is never sent, and the final flush sends the first batch again. | Three messages with a batch limit of two: the sends are [a,b] and then [a,b] again; c is never sent. | The fresh batch holding the rejected message replaces the first. Every message is sent exactly once, in order: [a,b] then [c]. | not executed | ServiceBusSender.ThreeMessagesTwoPerBatch | ServiceBusSender.IntendedSendsEverythingInOrder |

The comments at lines 116 and 120 of `sender.ts` describe the replacing behaviour. `ServiceBusSender.SendOrderBatch` models the code as written. `ServiceBusSender.SendOrderBatchIntended` implements the intended accumulator over the same batch and sender objects, and is proved to send `SendsIntended`.
