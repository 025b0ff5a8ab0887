# Sikabiz user import: a Dafny model

This project models the decision logic of the Sikabiz user-import
subsystem and proves properties of it.

- **`cmd/userimporterservice`** reads a batch of users and admits each record through a
  10-slot, non-blocking semaphore.
  - An admitted record gets a worker. The worker stores the user inside one unit of work.
  - A rejected record, and a worker whose transaction failed, go to the fallback.
  - The fallback publishes the user to the `save_user_queue` RabbitMQ queue, with up to
    three attempts two seconds apart. When every attempt fails, it appends the user as
    one JSON line to `failed_users_<timestamp>.json`.
- **The save-user event** produces to that queue and consumes from it. Consuming decodes
  the message, then runs begin / create / commit-or-rollback on a fresh unit of work.
- **The RabbitMQ client** keeps a registry of consumers.
  - It produces through a chain of channel operations that stops at the first failure.
  - It acknowledges or rejects every delivery.
  - It re-dials after a lost connection and then sets every registered consumer up again.
- **The rest:**
  - the Postgres address and user repositories and their error mapping;
  - the `serviceerror` keys;
  - the key-to-HTTP-status table;
  - the HTTP presenters.

## How the model is built

- **Oracles.** Brokers, databases, files, the JSON codec and the unit of work become
  oracles.
  - The k-th operation of a kind gets the answer `answer(k)`.
  - What the code sends to them is recorded in logs.
  - So each contract states both what is sent, in order, and what is returned.
- **Errors.** A Go `error` is an `Outcome` (`Ok` or `Failed(e)`). `errors.Is` is `Failures.Is`.
- **Mutated objects become classes.** Objects the source mutates are classes whose
  methods carry `modifies` clauses:
  - the RabbitMQ client, `Queue`, `SaveUser` and the package-level singleton;
  - the unit of work, the semaphore and the importer process;
  - the transaction and the repositories.
- **Reference functions.** Each method is proved equal to a function of the old state,
  for example:
  - `ProduceRun`, `SetupRun`, `RecoverRun`, `RegistrationRun`;
  - `RetryRun`, `BackupRun`, `FallbackRun`, `WorkerRun`, `MainRun`.

  The lemmas state what those functions guarantee.
- **The unit of work** is the state machine `Unstarted -> Active -> Committed | RolledBack`
  (`Port.Step`, `Port.Replay`). Both the worker and the consumer follow one protocol,
  `Port.ProtocolCalls`, and it is checked against that machine.
- **The importer's world.** `main`'s effects are a `World` value: publishes, sleeps, file
  calls, the backup directory, and the units of work opened. Its answers come from an
  `Env`.
- **Concurrency.** Concurrent workers are scheduled by an oracle: `finish(i)` workers, the
  oldest first, complete before record `i` is considered. `wg.Wait` runs the rest.

### Noteworthy behaviour of the code

- **Failed create, successful rollback.** A worker whose `Create` fails and whose
  `Rollback` succeeds returns without any fallback, so that record is neither stored,
  published nor backed up (main.go:92-97). This is `Importer.NeedsFallback`, and
  `Importer.WorkerAndConsumerDisagreeOnlyOnRolledBackCreate` isolates exactly that case.
- **What the consumer ends.** The consumer makes neither a commit nor a rollback when
  decoding or `BeginTx` fails. When `Commit` fails it makes only the commit, with no
  rollback (user_importer_queue.go:63-86). `Event.ConsumeEndsWhatItBegins` states this.
- **Publish or backup.** A fallback whose backup file cannot be opened or written leaves
  the record neither published nor backed up (main.go:130-132).
  `Importer.BackupOnlyAppends` states when the line is written.

## Model

| member | source | states |
|---|---|---|
| MessageBroker.NewRabbitMQ | internal/adaper/meesagebroker/rabbitmq.go:22-39 | the dial error is returned with a nil client; on success the client is fresh, on connection 0, watches that connection's close notifications, has an empty consumer registry and has only dialled the URL |
| MessageBroker.RabbitMQ.constructor | internal/adaper/meesagebroker/rabbitmq.go:28-34 | the struct literal: URL, connection 0, its close notifications, an empty consumer map |
| MessageBroker.RabbitMQ.Close | internal/adaper/meesagebroker/rabbitmq.go:41-45 | closes the current connection, one operation, whatever the answer |
| MessageBroker.RabbitMQ.DeclareBindPublish | internal/adaper/meesagebroker/rabbitmq.go:74-125 | issues the four operations in order, each only after the previous one succeeded, and returns the first error (the `Chain` of the steps) |
| MessageBroker.RabbitMQ.Produce | internal/adaper/meesagebroker/rabbitmq.go:47-128 | the log grows by exactly `ProduceRun`'s effects, the operation counter by the answers it used, and the error is `ProduceRun`'s result |
| MessageBroker.ProduceIsOneChain | internal/adaper/meesagebroker/rabbitmq.go:62-127 | once marshalled, Produce's result and effects are those of the single chain channel, exchange, queue, bind, publish, plus the close of an opened channel |
| MessageBroker.ProduceClosesWhatItOpens | internal/adaper/meesagebroker/rabbitmq.go:48-72 | a marshal failure returns its error before any channel is opened; a failed Channel() issues nothing more; once the channel is open it is closed exactly once, as the last action, on every path |
| MessageBroker.ProduceSucceedsWhenEveryStepDoes | internal/adaper/meesagebroker/rabbitmq.go:74-127 | Produce returns nil iff marshalling and all five broker calls succeed; it then issued: channel, ExchangeDeclare of `delayed_exchange` (`x-delayed-message`, durable, `x-delayed-type` direct), durable QueueDeclare, QueueBind by the queue's own name, persistent `text/plain` Publish with `x-delay` = delaySeconds * 1000, channel close |
| MessageBroker.ProduceIgnoresCloseError | internal/adaper/meesagebroker/rabbitmq.go:68-72 | changing the answer to the deferred channel close changes neither the result nor anything sent |
| MessageBroker.ChainStopsAtFirstFailure | internal/adaper/meesagebroker/rabbitmq.go:74-127 | a chain issues a prefix of its steps in order, fails iff some attempted step failed, and then returns the error of the last (first failing) step after only successes |
| MessageBroker.ChainAttempts | internal/adaper/meesagebroker/rabbitmq.go:74-127 | a chain attempts the succeeding prefix of its steps plus the first failing one |
| MessageBroker.ChainReturnsFirstError | internal/adaper/meesagebroker/rabbitmq.go:74-127 | a chain's result is the answer of its first failing step, or nil when none fails |
| MessageBroker.RabbitMQ.RegisterConsumer | internal/adaper/meesagebroker/rabbitmq.go:130-137 | the callback is stored under the name, replacing any earlier entry, before setup runs, and stays stored whatever setup returns; the setup's effects and error follow |
| MessageBroker.RabbitMQ.SetupConsumer | internal/adaper/meesagebroker/rabbitmq.go:139-224 | the log grows by exactly `SetupRun`'s effects and the error is its result |
| MessageBroker.SetupIsChain | internal/adaper/meesagebroker/rabbitmq.go:144-189 | setupConsumer is the chain channel, QueueDeclare, Consume, followed by the receive loop exactly when the chain succeeded |
| MessageBroker.SetupStartsLoopOnlyAfterAllSteps | internal/adaper/meesagebroker/rabbitmq.go:144-189 | the steps run in order (channel, durable QueueDeclare, Consume with autoAck false); it succeeds iff all three do, otherwise returns the first error; the receive loop starts iff it succeeded |
| MessageBroker.SetupOpensOneChannel | internal/adaper/meesagebroker/rabbitmq.go:144-150 | every setup opens exactly one channel, on the current connection |
| MessageBroker.SettlementFor | internal/adaper/meesagebroker/rabbitmq.go:195-219 | a nil callback result is acknowledged with Ack(false), an error rejected with Nack(false, false), and exactly one of the two |
| MessageBroker.ReceiveLoop | internal/adaper/meesagebroker/rabbitmq.go:189-221 | every delivery, in order, is passed to the callback and settled exactly once according to its result |
| MessageBroker.IterationOrder | internal/adaper/meesagebroker/rabbitmq.go:259-264 | `range` over the consumer map visits each registered name exactly once |
| MessageBroker.RabbitMQ.RecoverConsumers | internal/adaper/meesagebroker/rabbitmq.go:255-265 | every registered name is set up once, in the visiting order, whatever earlier setups returned; the registry is unchanged |
| MessageBroker.RecoverAttemptsEveryConsumer | internal/adaper/meesagebroker/rabbitmq.go:255-265 | recovering n consumers opens exactly n channels on the new connection and reports no error, even when setups fail |
| MessageBroker.RabbitMQ.DialUntilConnected | internal/adaper/meesagebroker/rabbitmq.go:232-250 | sleeps 5 seconds then dials, repeatedly, until a dial succeeds; every earlier dial failed; the new connection and its close notifications replace the old ones |
| MessageBroker.ReconnectSleepsBeforeEveryDial | internal/adaper/meesagebroker/rabbitmq.go:232-236 | n reconnect rounds are exactly n pairs of a 5-second sleep followed by a dial of the URL |
| MessageBroker.RabbitMQ.HandleCloseNotification | internal/adaper/meesagebroker/rabbitmq.go:226-253 | a nil notification changes nothing; a non-nil one reconnects and then recovers every registered consumer exactly once on the new connection |
| MessageBroker.Queue.constructor | internal/adaper/meesagebroker/queue.go:15-20 | NewQueue keeps the configuration and leaves the driver unset |
| QueueEvents.RegisterEvents | internal/adaper/meesagebroker/queue.go:22-26 | Register is called once per event, in argument order, and not at all for no events: the registrations grow by exactly one (name, Consume) pair per event, the log by their setups, and the last event's Consume ends up in the registry |
| QueueEvents.Registrations | internal/adaper/meesagebroker/queue.go:22-26 | one (save_user_queue, Consume of the i-th event) pair for the i-th event |
| QueueEvents.Callbacks | internal/adaper/meesagebroker/queue.go:22-26 | the i-th callback registered is the i-th event's Consume |
| QueueEvents.EveryRegistrationOpensOneChannel | internal/adaper/meesagebroker/queue.go:22-26 | registering n events opens exactly n channels and RegisterEvents reports no error |
| Setup.InitializeQueue | cmd/setup/setup.go:22-34 | the dial error is returned with no queue; on success the driver is attached to a fresh queue only after the dial succeeded, with the configured URL |
| Event.EventPackage.constructor | internal/core/event/user_importer_queue.go:22-22 | the package-level instance starts nil |
| Event.EventPackage.NewSaveUser | internal/core/event/user_importer_queue.go:27-38 | the first call creates the handler from its arguments; every later call returns that same instance and ignores its arguments |
| Event.SaveUser.constructor | internal/core/event/user_importer_queue.go:29-34 | the handler keeps its queue, codec and database and has opened no unit of work |
| Event.SaveUser.Name | internal/core/event/user_importer_queue.go:40-42 | the handler's queue name is always `save_user_queue` |
| Event.SaveUser.Publish | internal/core/event/user_importer_queue.go:44-56 | produces the message to `save_user_queue` with delay 0 and returns the driver's error unchanged |
| Event.SaveUser.Consume | internal/core/event/user_importer_queue.go:58-91 | the result is `ConsumeOutcome`; a unit of work is opened, and its calls recorded, exactly when the message decodes |
| Event.SaveUser.Register | internal/core/event/user_importer_queue.go:93-106 | registers this handler's Consume under `save_user_queue` with the driver; the registration error is dropped |
| Event.Transact | internal/core/event/user_importer_queue.go:71-86 | the calls made on the unit of work are the begin / create / commit-or-rollback protocol and the error is `TransactionOutcome` |
| Event.TransactionOutcome | internal/core/event/user_importer_queue.go:73-86 | nil iff BeginTx, Create and Commit all succeed; otherwise one of the four answers |
| Event.UndecodableMessageTouchesNoTransaction | internal/core/event/user_importer_queue.go:62-66 | an undecodable message returns the decoder's error and opens no unit of work |
| Event.ConsumeEndsWhatItBegins | internal/core/event/user_importer_queue.go:73-90 | BeginTx failure: its error, with neither commit nor rollback; Create failure: exactly one Rollback, no Commit, the rollback's error if any and the create's otherwise; Create success: exactly one Commit, no Rollback, the commit's answer; in each case the calls are a legal run of the unit-of-work machine |
| Event.ConsumeSucceedsExactlyWhenCommitted | internal/core/event/user_importer_queue.go:58-91 | Consume returns nil iff the message decodes, the transaction ends Committed and Commit reported no error |
| Event.DeliveryAckedExactlyWhenCommitted | internal/adaper/meesagebroker/rabbitmq.go:195-219 | a save-user delivery is acknowledged iff its user was committed without error, and otherwise rejected without requeue |
| Port.UnitOfWork.constructor | internal/core/port/unit_of_work.go:7-11 | a fresh unit of work is unstarted and has had no calls |
| Port.UnitOfWork.BeginTx | internal/core/port/unit_of_work.go:8-8 | the state moves from Unstarted to Active on success and stays Unstarted on error, as the reference machine allows |
| Port.UnitOfWork.Commit | internal/core/port/unit_of_work.go:9-9 | from Active, ends the transaction as Committed whatever the answer |
| Port.UnitOfWork.Rollback | internal/core/port/unit_of_work.go:10-10 | from Active, ends the transaction as RolledBack whatever the answer |
| Port.CreateUser | internal/core/event/user_importer_queue.go:77-77 | the user service's Create works inside the active transaction and returns its answer |
| Port.ProtocolIsDisciplined | internal/core/event/user_importer_queue.go:73-86 | the begin / create / commit-or-rollback protocol is a legal run of the machine that ends the transaction iff BeginTx succeeded, then with exactly one of Commit (Create succeeded) or Rollback (Create failed) |
| Importer.Semaphore.constructor | cmd/userimporterservice/main.go:53-53 | a buffered channel of the given capacity, empty |
| Importer.Semaphore.TryAcquire | cmd/userimporterservice/main.go:77-78 | the non-blocking send takes a slot iff fewer than capacity are held; held slots never exceed the capacity |
| Importer.Semaphore.Release | cmd/userimporterservice/main.go:83-83 | a receive frees exactly one slot |
| Importer.Process.constructor | cmd/userimporterservice/main.go:69-75 | the process starts from the given world and oracles |
| Importer.Process.Publish | cmd/userimporterservice/main.go:125-127 | one publish call, recorded, answered by the next publish answer |
| Importer.Process.Retry | cmd/userimporterservice/main.go:114-122 | the world and error are exactly `RetryRun`'s |
| Importer.RetryStopsAtFirstSuccess | cmd/userimporterservice/main.go:114-122 | at most `attempts` calls (none for attempts <= 0), nil right after the first success, a sleep after every failure including the last, and after `attempts` failures the error "failed after <attempts> attempts"; nothing but publishes and sleeps changes |
| Importer.Process.SaveFailedDataToBackup | cmd/userimporterservice/main.go:136-155 | the world and error are exactly `BackupRun`'s |
| Importer.BackupOnlyAppends | cmd/userimporterservice/main.go:136-155 | the file is `failed_users_<ts>.json`, opened for append and created if absent; no other file changes; a failed open changes no file at all; its earlier lines stay; exactly one encoded line is added iff open, encode and write succeed; failures are wrapped with "error opening backup file" or "error writing to backup file" |
| Importer.Process.HandleFailedPublish | cmd/userimporterservice/main.go:124-134 | the world is exactly `FallbackRun`'s; a backup error is only logged |
| Importer.FallbackBacksUpOnlyAfterEveryRetryFails | cmd/userimporterservice/main.go:124-134 | when all 3 attempts fail, 3 publishes are made and the backup is tried; when one succeeds, the backup directory and file calls are untouched; either way the earlier publishes are kept, the record itself is published next, and no unit of work is opened |
| Importer.Process.Work | cmd/userimporterservice/main.go:80-105 | the world is exactly `WorkerRun`'s |
| Importer.NeedsFallback | cmd/userimporterservice/main.go:86-103 | a worker falls back exactly on a BeginTx failure, a Create failure followed by a Rollback failure, or a Commit failure, and not when Create fails and Rollback succeeds |
| Importer.WorkerFallsBackUnlessTransactionEndedCleanly | cmd/userimporterservice/main.go:86-103 | the worker falls back iff its unit of work did not end committed without a commit error or rolled back without a rollback error: BeginTx failure, Create then Rollback failure, Commit failure |
| Importer.WorkerAndConsumerDisagreeOnlyOnRolledBackCreate | cmd/userimporterservice/main.go:92-97 | a worker falls back only when the consumer would return an error, and the only case where the consumer errs but the worker does not fall back is a failed Create whose Rollback succeeded |
| Importer.WorkerOpensOneUnitOfWork | cmd/userimporterservice/main.go:86-104 | a worker opens exactly one unit of work and runs the protocol on it; it publishes or backs up only when it falls back, and then publishes its own record first |
| Importer.RunWorkersOpensOneUnitEach | cmd/userimporterservice/main.go:80-105 | n finished workers opened exactly n units of work |
| Importer.Process.FinishWorkers | cmd/userimporterservice/main.go:81-84 | the given workers run oldest first and each frees its slot on exit |
| Importer.AdmitRoutesByFreeSlot | cmd/userimporterservice/main.go:76-108 | a record goes to a worker iff fewer than WorkerCount (10) slots are held after the finished workers released theirs; then it joins the pending workers and the world is exactly that after the finished workers; otherwise it goes inline: the world is `FallbackRun` of the world after the finished workers, which opens no unit of work and publishes that record next; at most 10 workers are ever pending |
| Importer.AdmissionsInvariant | cmd/userimporterservice/main.go:76-109 | every record is routed exactly once, in order, at most 10 workers are pending, and units opened plus workers pending equals the number of records dispatched (a count; the per-record statement is AdmissionsOpenInOrder) |
| Importer.DispatchedUsers | cmd/userimporterservice/main.go:76-108 | the records routed to a worker, in input order; as many as the Dispatched routes |
| Importer.OpenUnitsAppend | cmd/userimporterservice/main.go:86-87 | opening units for the workers of a + b is opening them for a, then for b |
| Importer.OpenUnitsAt | cmd/userimporterservice/main.go:86-104 | opening units keeps the earlier ones, and the j-th new unit holds the protocol run on the j-th record with the script of that unit |
| Importer.RunWorkersOpenInOrder | cmd/userimporterservice/main.go:80-105 | workers completing one after the other open the next units of work, each running the protocol on its own record |
| Importer.AdmitKeepsOpenInOrder | cmd/userimporterservice/main.go:76-108 | one turn of main's loop keeps the invariant: the pending workers are the latest dispatched records, and the units opened are those of the earlier dispatched records, in order |
| Importer.AdmissionsOpenInOrder | cmd/userimporterservice/main.go:76-109 | that invariant holds all along main's loop |
| Importer.MainOpensDispatchedUnits | cmd/userimporterservice/main.go:76-111 | the units of work main leaves are exactly those opened, in order, for the records routed to a worker |
| Importer.Process.ImportUsers | cmd/userimporterservice/main.go:76-111 | the loop and `wg.Wait` leave the world exactly as `MainRun` says, and the routes are `Admissions`' |
| Importer.MainWaitsForEveryWorker | cmd/userimporterservice/main.go:76-111 | when main returns every record has been routed once and every dispatched worker has finished: the earlier units are kept, and the j-th new unit of work is the begin / create / commit-or-rollback run on the j-th dispatched record |
| Storage.AddressRepository.constructor | internal/adaper/storage/postgres/userrepository/address.go:16-21 | the repository works on the given transaction |
| Storage.AddressRepository.Save | internal/adaper/storage/postgres/userrepository/address.go:23-56 | a Prepare failure returns ServerError and inserts nothing; otherwise one row per address, in slice order, with its five fields and the user id, up to the first Exec failure, which returns ServerError and leaves earlier rows in place; nil iff every insert succeeded (so an empty list inserts nothing and returns nil); the statement is closed on every path |
| Storage.RowsAt | internal/adaper/storage/postgres/userrepository/address.go:37-38 | the i-th inserted row carries the i-th address's five fields and the owner's id |
| Storage.Select | internal/adaper/storage/postgres/userrepository/user.go:26-29 | only a row that is not deleted and has the requested id is found, and none is missed |
| Storage.Tx.QueryRow | internal/adaper/storage/postgres/userrepository/user.go:26-29 | the row carries the SELECT's match and the query's error, if any |
| Storage.ScanUser | internal/adaper/storage/postgres/userrepository/user.go:46-60 | a query error or ErrNoRows is returned with the zero user; otherwise id, email and phone number come from the row, and the name column is read but not stored |
| Storage.LookupError | internal/adaper/storage/postgres/userrepository/user.go:31-38 | RecordNotFound iff the error is (or wraps) ErrNoRows, ServerError otherwise |
| Storage.UserRepository.constructor | internal/adaper/storage/postgres/userrepository/user.go:18-23 | the repository works on the given transaction |
| Storage.UserRepository.GetByID | internal/adaper/storage/postgres/userrepository/user.go:25-44 | a user exactly when no error; no matching row gives RecordNotFound, any other failure ServerError, never the raw database error; a found user is built from the matching row |
| ServiceError.KeysArePrefixed | pkg/serviceerror/error_message.go:5-44 | every key string begins with "errors." |
| ServiceError.AllMessagesComplete | pkg/serviceerror/error_message.go:5-44 | the package declares 25 keys, each listed once |
| ServiceError.KeyInjective | pkg/serviceerror/error_message.go:5-44 | two constants with the same string are the same constant |
| ServiceError.WellKnownKeys | pkg/serviceerror/error_message.go:7-27 | ServerError is "errors.serverError", RecordNotFound "errors.recordNotFound", OTPExpired "errors.OTPExpired" |
| StatusCodes.MappedExactly | internal/adaper/http/handler/status_code_mapping.go:9-39 | a key has an entry iff it is not PasswordIsNull, FlowTokenExpired or InvalidFlowToken |
| StatusCodes.MappedInOrder | internal/adaper/http/handler/status_code_mapping.go:9-39 | the keys of the literal, listed in source order, are exactly the table's keys |
| StatusCodes.StatusFor | internal/adaper/http/handler/status_code_mapping.go:9-39 | the lookup finds a status iff the key is mapped, and every status is one of 400, 401, 403, 404, 409, 500, 503 |
| StatusCodes.GeneralStatuses | internal/adaper/http/handler/status_code_mapping.go:11-35 | RecordNotFound is 404, ServerError 500, ServiceUnavailable 503, EmailRegistered and RoleExisted 409 |
| StatusCodes.NotInjective | internal/adaper/http/handler/status_code_mapping.go:15-24 | Unauthorized and CredentialInvalid are different keys with the same status 401 |
| StatusCodes.TableSize | internal/adaper/http/handler/status_code_mapping.go:9-39 | the table has exactly 22 entries |
| Presenter.PrepareAddress | internal/adaper/http/presenter/address.go:13-25 | nil gives nil; otherwise the five optional fields are copied unchanged, so an absent field stays absent |
| Presenter.ToAddressCollection | internal/adaper/http/presenter/address.go:27-37 | the loop's result is `Presented`: the nil entries dropped, the others presented in order |
| Presenter.PresentedLength | internal/adaper/http/presenter/address.go:28-35 | one resource per non-nil input |
| Presenter.PresentedInOrder | internal/adaper/http/presenter/address.go:29-33 | the k-th resource presents the k-th non-nil input, so relative order is kept |
| Presenter.AllNilPresentsNothing | internal/adaper/http/presenter/address.go:28-36 | an empty or all-nil input presents as the empty collection |
| Presenter.PrepareUser | internal/adaper/http/presenter/user.go:23-35 | nil gives nil; the id is Base.ID, email and phone number are copied; the addresses are never filled |
| Presenter.ToUserResource | internal/adaper/http/presenter/user.go:37-39 | the same resource as PrepareUser |
| Presenter.PrepareUserIgnoresAddresses | internal/adaper/http/presenter/user.go:23-35 | the resource depends only on the id, email and phone number |

## Left out

- Concurrency: goroutines, `sync.Mutex`, the wait group and the semaphore's blocking semantics are not modelled. Workers run to completion one at a time, oldest first, at points chosen by the `finish` oracle (`Importer.Process.ImportUsers`); interleavings of concurrently running workers, and workers finishing out of admission order, are not covered.
- `time.Sleep` is recorded as an effect with its duration; no time passes.
- Logging and Prometheus metrics: they have no effect on results.
- `encoding/json`: marshalling and unmarshalling are oracles that can fail; their round trip belongs to the library.
- Real AMQP and `database/sql`: every broker, transaction and file answer comes from an oracle; SQL text is not modelled.
- The queue name the server returns from QueueDeclare is taken to be the requested name.
- MessageBroker.RabbitMQ.Produce: `x-delay` is delaySeconds * 1000 on unbounded integers; int64 overflow for huge delays is not modelled.
- MessageBroker.RabbitMQ.Produce: the message is a `User`, the only type the repository passes; Go's `interface{}` parameter is not modelled.
- MessageBroker.RabbitMQ.HandleCloseNotification: requires that some later dial succeeds; with no such dial the source's loop runs forever, which is not modelled (likewise `DialUntilConnected`).
- The outer `for` of handleReconnect, which waits forever on the notification channel, is modelled one notification at a time by `HandleCloseNotification`; the goroutine NewRabbitMQ starts for it is not modelled.
- After a graceful `Close` the client library closes the notification channel, so the receive at rabbitmq.go:227 yields nil at once, forever, and handleReconnect spins without blocking. The model treats each nil notification as a no-op and does not model that busy loop.
- Importer.Process.Publish: the importer sees `saveUserEvent.Publish` only through its answers; that each attempt is `Event.SaveUser.Publish`, a produce to `save_user_queue` with delay 0 (`MessageBroker.ProduceRun`), is proved in the event model but not connected to the importer's world.
- setupConsumer does not close its channel when a later step fails; the model records this (no close is issued) but proves nothing about leaked channels.
- MessageBroker.RabbitMQ.RecoverConsumers: the map's iteration order is left unspecified; the contracts hold for whatever order is visited.
- MessageBroker.ReceiveLoop: the callback is a pure function of the delivery; `Event.SaveUser.Consume` as a state-changing callback is connected to it by `Event.DeliveryAckedExactlyWhenCommitted`, not by running it inside the loop.
- Event.SaveUser.Register: the source registers on a new goroutine; the model registers before Register returns.
- The `Queue.Log` field and the `port.Driver` interface: the driver is the RabbitMQ class itself.
- `userrepository.NewUnitOfWork` and `UserService.Create` are not part of this model; the answers of each unit of work come from a script (`Port.TxScript`).
- Importer.Process.Work: `Create` receives the admitted record; the source passes `&user`, the loop variable, which under Go 1.22 per-iteration loop variables is the same record.
- Importer.Process.Retry: `retry` is specialised to the one function the importer passes, the publish of one user.
- Importer.BackupFileName: the timestamp is taken as an opaque string computed once at start; its `YYYYMMDD_HHMMSS` layout from `time.Now().Format` is not modelled.
- Importer.BackupRun: a failed write adds no line; a partially written line is not modelled. Errors from closing the input or backup file are ignored by the source and not modelled.
- Reading and decoding `users_data.json`, `InitializeDatabase`, `log.Fatal`, and the deferred `queue.Driver.Close()` in main are not modelled; `Importer.Process.ImportUsers` starts from the decoded records.
- Storage.AddressRepository.Save: requires every address to be non-nil; a nil entry makes the source panic on the field access, which is not modelled.
- Presenter.PrepareUser: `presenter.User.Name` is left out, because it is filled from `user.Name`, which `domain.User` does not have (presenter/user.go:30); the package also declares `type Address` twice (presenter/address.go:5 and presenter/user.go:7), so both are modelled under distinct names, `AddressResource` and `UserAddress`.
- HTTP handlers, routes, middlewares, configuration loading, migrations, the consumer binary and `internal/core/service/userservice` are not part of this model.
