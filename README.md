# greeting-receiver: a Dafny model of the validate → convert → store path

The service receives a *greeting* (`to`, `from`, `heading`, `message`, `created`) on
`POST /greeting`. It validates the four text fields against their length bounds, converts
the request DTO into the domain record `Greeting`, and hands the record to an ingest
service (`GreetingServiceImpl`). The service forwards it to a pluggable repository: an
in-memory vector, a relational table, or a transactional Kafka producer. This project
models that path and proves what each step promises.

Modules, one per source file (plus two small helpers):

- `Results` (results.dfy): Rust's `Result`, with `map` and `map_err`, the two ways the
  source's `?` and `From` impls transform results.
- `Time` (time.dfy): `NaiveDateTime` and `DateTime<Utc>` as opaque values, with
  `naive_utc` and `and_utc` as inverse conversions.
- `Service` (service.rs): the domain record, `Greeting::new`, `ServiceError`, the ingest
  service class and the in-memory `MockGreetingRepository` class, plus the service's unit
  test as a verified client method.
- `Repository` (repository.rs): the table entity, the conversions in both directions,
  `GreetingEntity::new`, the row mapping of `all`, and the error conversions. The
  database's replies are parameters.
- `Api` (api.rs): the DTO and its validation, `ApiError` and its status codes, the
  DTO/record conversions, the `greet` handler as a method, the service stub, and the
  handler's two tests as verified client methods.
- `KafkaProducer` (kafka_producer.rs): the extended greeting and the bus message, the
  header injector (a class whose `set` rebuilds the list with a loop), the record that
  `store` sends, and `store` itself over a producer class that records its calls.

Where the files disagree (they come from different revisions), the model resolves it as
follows:

- api.rs:96-102 calls a five-argument `Greeting::new`. service.rs:63 has four arguments
  and sets `created` to the default. `DtoToGreeting` follows api.rs: it copies all five
  fields, reading `created` as a naive UTC time. `NewGreeting` follows service.rs.
- kafka_producer.rs:113-120 reads `external_reference`, `id` and `events_created`, which
  the service.rs `Greeting` lacks. The producer therefore takes its own extended record,
  `KafkaGreeting`.
- `GreetingSvcStub` (api.rs:174-178) implements only `receive_greeting`. Its model has no
  `AllGreetings`.
- The service is `GreetingServiceImpl<C>` with `C = MockGreetingRepository`, the only
  repository here whose state is part of the model. The `Box<dyn GreetingService>` that
  `greet` receives is the datatype `GreetingServiceHandle`. It is either that service or
  the stub, and `ReceiveGreeting` dispatches on it.
- The Kafka `store` is declared to return `Result<(), ServiceError>`, but every producer
  call ends in `.expect` (kafka_producer.rs:60-79), so a failure panics instead of
  returning an error. `Store` yields `Panicked(message)` with the source's message, and
  it never yields `Returned(Err(_))`.
- In the deployed wiring (main.rs:39-51) the service runs over the Kafka repository.
  A `store` that panics while `greet` holds the write guard poisons the `RwLock`. From
  then on `RwLock::write` fails, so every later `greet` returns `Applicationerror`: the
  case `lockAcquired = false`.

Inputs that the model takes as parameters:

- `lockAcquired`: whether `RwLock::write` succeeded in `greet`.
- The version-7 UUID that `GreetingEntity::from` generates.
- The database's reply to each query.
- The broker's reply to each producer call.
- The sequence of `set` calls the OpenTelemetry propagator makes, as `traceContext`.

## Model

| member | source | states |
|---|---|---|
| `Time.NaiveUtc` | src/greeting/api.rs:101 | `naive_utc` loses nothing: `and_utc` of its result gives back the original UTC time |
| `Time.AndUtc` | src/greeting/api.rs:112 | `and_utc` keeps the naive time as the UTC time's value |
| `Service.NewGreeting` | src/greeting/service.rs:63-71 | `Greeting::new` sets the four text fields as given and `created` to the default (epoch) time |
| `Service.NewGreetingInjective` | src/greeting/service.rs:63-71 | two greetings built by `Greeting::new` are equal iff their four text fields are equal |
| `Service.MockGreetingRepository.constructor` | src/greeting/service.rs:103-107 | a new mock repository holds no greetings |
| `Service.MockGreetingRepository.All` | src/greeting/service.rs:111-113 | `all` returns `Ok` of the stored greetings in insertion order and changes nothing |
| `Service.MockGreetingRepository.Store` | src/greeting/service.rs:115-119 | `store` appends the greeting at the end, keeps earlier entries unchanged, does not deduplicate, and always returns `Ok(())` |
| `Service.GreetingServiceImpl.constructor` | src/greeting/service.rs:28-32 | the service owns the repository it is given |
| `Service.GreetingServiceImpl.ReceiveGreeting` | src/greeting/service.rs:37-39 | `receive_greeting` has exactly the repository's `store` effect and result |
| `Service.GreetingServiceImpl.AllGreetings` | src/greeting/service.rs:41-43 | `all_greetings` returns exactly what the repository's `all` returns |
| `Service.TestReceiveGreeting` | src/greeting/service.rs:80-95 | the unit test holds: receiving "John"/"Jane"/"Hello"/"Hi John!" on a fresh repository is `Ok`, and `all_greetings` then returns exactly that greeting |
| `Service.StoreThenAll` | src/greeting/service.rs:80-95 | for every greeting `g`, receiving it on a fresh repository and then calling `all` yields exactly `[g]` |
| `Service.StoreTwiceThenAll` | src/greeting/service.rs:115-119 | storing the same greeting twice yields two entries `[g, g]` (no deduplication) |
| `Repository.EntityFromGreeting` | src/greeting/repository.rs:61-72 | the entity carries the generated id, and converting it back gives the original greeting whatever the id (Greeting → Entity → Greeting is the identity) |
| `Repository.GreetingFromEntity` | src/greeting/repository.rs:74-84 | copies `to`, `from`, `heading`, `message` and `created`, and drops `id` |
| `Repository.EntityRoundTrip` | src/greeting/repository.rs:61-84 | Entity → Greeting → Entity with the entity's own id is the identity |
| `Repository.NewEntity` | src/greeting/repository.rs:86-96 | `GreetingEntity::new` uses the nil id and the default `created`, and its greeting is the one `Greeting::new` builds from the same text fields |
| `Repository.GreetingsFromEntities` | src/greeting/repository.rs:19 | one greeting per fetched row, same length, in row order |
| `Repository.EntitiesFromGreetings` | src/greeting/repository.rs:23 | the rows stored for a list of greetings: one entity per greeting, in order, each with its generated id |
| `Repository.StoredRowsReadBack` | src/greeting/repository.rs:14-29 | when the database returns the stored rows in insertion order, reading them back yields exactly `gs` in order, through the row mapping and through `all`, whatever ids were generated |
| `Repository.GreetingsFromEntitiesPermutation` | src/greeting/repository.rs:19 | rows that are a permutation of each other map to greetings that are a permutation of each other |
| `Repository.StoredRowsReadBackAnyOrder` | src/greeting/repository.rs:14-29 | the `SELECT` has no `ORDER BY`. For rows returned in any order, `all` succeeds with exactly the stored greetings, each as often as it was stored |
| `Repository.RepoErrorFromSqlx` | src/greeting/repository.rs:115-119 | a database error becomes `RepoError::DbError` with the same string form |
| `Repository.RepoErrorFromMigrate` | src/greeting/repository.rs:121-125 | a migration error becomes `RepoError::DbMigrationError` with the same string form |
| `Repository.RepoErrorText` | src/greeting/repository.rs:99-103 | the derived `Display` of `RepoError`: each variant reads as the error it wraps |
| `Repository.ServiceErrorFromRepo` | src/greeting/repository.rs:105-109 | a `RepoError` becomes `ServiceError::RepoError` carrying its string form |
| `Repository.ServiceErrorFromSqlx` | src/greeting/repository.rs:110-114 | a database error becomes `ServiceError::RepoError` carrying its string form |
| `Repository.ConversionPathsAgree` | src/greeting/repository.rs:105-119 | converting a database error to a service error directly, or through `RepoError`, gives the same service error |
| `Repository.SqlAll` | src/greeting/repository.rs:14-20 | a failed `SELECT` becomes `ServiceError::RepoError` with the error's text; otherwise `Ok` with one greeting per row, in the order the rows came back |
| `Repository.InsertRows` | src/greeting/repository.rs:24-25 | an `INSERT` without `RETURNING` produces no rows when it succeeds, and its error otherwise |
| `Repository.FetchOne` | src/greeting/repository.rs:26 | `fetch_one` gives the first row produced, `RowNotFound` when there is none, or the statement's own error |
| `Repository.SqlStoreAsWritten` | src/greeting/repository.rs:22-29 | `store` as written, the insert run through `fetch_one`: a failed insert becomes `ServiceError::RepoError` with its text |
| `Repository.SqlStoreAsWrittenNeverSucceeds` | src/greeting/repository.rs:22-29 | as written, `store` never returns `Ok`: a successful insert still fails with `RowNotFound`'s text |
| `Repository.SqlStore` | src/greeting/repository.rs:22-29 | `store` as intended, running the insert for its effect: it succeeds iff the insert did, and a failed insert becomes `ServiceError::RepoError` with its text, as written does |
| `Api.Validate` | src/greeting/api.rs:79-92 | validation succeeds iff `1 ≤ |to| ≤ 20`, `1 ≤ |from| ≤ 20`, `1 ≤ |heading| ≤ 50` and `1 ≤ |message| ≤ 50`, counting characters. On failure the error map is non-empty, names exactly the offending fields, and gives each one's bounds and value |
| `Api.StatusCode` | src/greeting/api.rs:51-58 | `BadClientData` maps to 400, the only client error; `ApplicationError` and `Applicationerror` both map to 500 |
| `Api.FromValidationErrors` | src/greeting/api.rs:67-71 | validation errors become `BadClientData` carrying them unchanged |
| `Api.FromServiceError` | src/greeting/api.rs:73-77 | a service error becomes `ApplicationError` carrying it unchanged |
| `Api.DtoToGreeting` | src/greeting/api.rs:94-104 | the DTO's `to`, `from`, `heading` and `message` carry over unchanged, and `created` is its naive UTC time |
| `Api.GreetingToDto` | src/greeting/api.rs:105-115 | the inverse: converting the resulting DTO back gives the original greeting |
| `Api.DtoRoundTrip` | src/greeting/api.rs:94-115 | DTO → Greeting → DTO is the identity |
| `Api.ValidDtoGivesBoundedGreeting` | src/greeting/api.rs:34-38 | a greeting built from a DTO that passed validation obeys the same length bounds |
| `Api.GreetResponse` | src/greeting/api.rs:30-42 | validation errors give `BadClientData`, the only client-error outcome. A lock failure gives `Applicationerror`. A service error is propagated unchanged inside `ApplicationError`. Success, and only success, is 200 with an empty body |
| `Api.GreetingSvcStub.ReceiveGreeting` | src/greeting/api.rs:175-177 | the stub accepts every greeting with `Ok(())` |
| `Api.GreetingServiceHandle.ReceiveGreeting` | src/greeting/api.rs:38 | the call dispatches on the boxed service: the service over the mock appends the greeting; both return `Ok(())` |
| `Api.Greet` | src/greeting/api.rs:30-42 | the handler yields `GreetResponse`. An invalid DTO or a failed lock leaves the service untouched, so `receive_greeting` is never called. An accepted DTO appends exactly its greeting. The invariant "every stored greeting is within bounds" is preserved |
| `Api.TestStoreGreeting` | src/greeting/api.rs:123-144 | the sample DTO "test"/"testa"/"Merry Christmas"/"Happy new year" is answered with 200 (success) |
| `Api.TestInvalidGreeting` | src/greeting/api.rs:146-168 | the DTO with a 32-character `to` is answered with 400 (client error) |
| `Api.GreetThenAll` | src/greeting/api.rs:30-42 | end to end over the mock: a valid DTO gives 200 and then `all` yields exactly its greeting; an invalid one gives 400 and nothing is stored |
| `KafkaProducer.MessageFromGreeting` | src/greeting/kafka_producer.rs:110-123 | `GreetingMessage::from` copies every field, the `events_created` map included |
| `KafkaProducer.MessageFromGreetingInjective` | src/greeting/kafka_producer.rs:110-123 | distinct greetings give distinct messages: nothing is lost |
| `KafkaProducer.PrependHeader` | src/greeting/kafka_producer.rs:129-141 | the rebuilt list is the new header followed by the old headers in their original order, one element longer |
| `KafkaProducer.PrependedKeyCounts` | src/greeting/kafka_producer.rs:128-143 | putting the new header first raises the count under its key by exactly one, so an existing header with that key is neither removed nor replaced. Counts under other keys are unchanged |
| `KafkaProducer.HeaderInjector.constructor` | src/greeting/kafka_producer.rs:125 | the injector wraps the given header list |
| `KafkaProducer.HeaderInjector.Set` | src/greeting/kafka_producer.rs:128-143 | `set(k, v)` replaces the borrowed list with `(k, v)` followed by all previous headers in order |
| `KafkaProducer.Injected` | src/greeting/kafka_producer.rs:51-58 | the header list after the propagator's `set` calls, starting from `("id", id)`, with exactly one more header per call |
| `KafkaProducer.InjectedShape` | src/greeting/kafka_producer.rs:51-58 | after any number of `set` calls, the starting headers are still the suffix, in order, and the injected ones precede them, most recent first |
| `KafkaProducer.OutgoingRecord` | src/greeting/kafka_producer.rs:47-76 | the sent record's key, its payload's id and its `"id"` header (the header list starts from exactly that one) all equal the greeting's id. The payload is the message. The partition is -1 |
| `KafkaProducer.ServiceErrorFromKafka` | src/greeting/kafka_producer.rs:92-96 | a Kafka error becomes `ServiceError::RepoError` carrying its string form |
| `KafkaProducer.Producer.constructor` | src/greeting/kafka_producer.rs:19-22 | a new producer has seen no calls |
| `KafkaProducer.Producer.BeginTransaction` | src/greeting/kafka_producer.rs:60-62 | records the call and returns the broker's reply |
| `KafkaProducer.Producer.Send` | src/greeting/kafka_producer.rs:65-75 | records the call with its record and returns the broker's reply |
| `KafkaProducer.Producer.CommitTransaction` | src/greeting/kafka_producer.rs:77-79 | records the call and returns the broker's reply |
| `KafkaProducer.Producer.FetchMetadata` | src/greeting/kafka_producer.rs:85-88 | records the metadata request for the topic and returns the broker's reply |
| `KafkaProducer.StoreCalls` | src/greeting/kafka_producer.rs:60-81 | `store` always begins a transaction first. It sends iff the begin succeeded and commits iff the send also succeeded. A commit means the calls were exactly begin, send, commit |
| `KafkaProducer.KafkaGreetingRepository.constructor` | src/greeting/kafka_producer.rs:38-41 | the repository holds the given producer and topic |
| `KafkaProducer.KafkaGreetingRepository.Store` | src/greeting/kafka_producer.rs:46-82 | the producer sees `StoreCalls` for the outgoing record. `store` returns, and then with `Ok(())`, iff begin, send and commit all succeed. Otherwise it panics with the message of the first failing call, and it never returns an error |
| `KafkaProducer.KafkaGreetingRepository.PeekTopic` | src/greeting/kafka_producer.rs:84-90 | fetches the topic's metadata: `Ok(())` when the broker answers, a panic "Failed fetch metadata" otherwise |
| `KafkaProducer.StoreOnFreshProducer` | src/greeting/kafka_producer.rs:46-82 | on a fresh producer, for all inputs and replies: `Ok` iff all three replies succeed, and then the producer saw exactly begin, send of the outgoing record, commit, in that order |

## Left out

- Logging and tracing: the `info!` calls (api.rs:37, kafka_producer.rs:63) and the `#[instrument]` span on `greet` (api.rs:29) have no effect on results.
- Concurrency: the `RwLock` in `greet` and all `async`/`await`. Calls are sequential, and a poisoned lock is the parameter `lockAcquired`.
- JSON: deserialising the request (a malformed body is rejected by the framework before `greet` runs) and serialising the bus payload with serde. The record's payload is the `GreetingMessage` itself.
- Display formatting: the text of errors and the error response body (api.rs:60-64). Every error type is represented by its string form, and a `RepoError`'s string form is taken to be its wrapped error's.
- The SQL statements, the connection pool and the migrations (repository.rs:14-17, 22-29, 37-47). The rows the `SELECT` returns, and the database's result of executing the `INSERT`, are parameters of `SqlAll`, `SqlStoreAsWritten` and `SqlStore`.
- Generating the version-7 UUID (repository.rs:64), and uniqueness of generated ids: the id is a parameter.
- The calendar meaning of timestamps: `created` values are opaque, and `naive_utc`/`and_utc` are inverse bijections.
- Producer construction and `init_transactions` (kafka_producer.rs:24-42), retries and timeouts: library behaviour.
- The OpenTelemetry propagator: it is a sequence of `HeaderInjector::set` calls, given as `traceContext`.
- KafkaProducer.PrependHeader: does not model the panics of `header.value.unwrap()` and of UTF-8 decoding (kafka_producer.rs:135). Header values are text and always present.
- Format of the Kafka id: `greeting.id.to_string()` is taken as the string id itself. The type of `id` in the extended greeting is not part of the source, so `KafkaGreeting.id` is a string.
- `GreetingServiceImpl` over the relational or Kafka repository: without traits the service is modelled over the mock repository only. The other two repositories are modelled on their own. The Kafka one takes the extended record, which `Greeting` cannot supply.
- The consumer loop, `main.rs` and `settings.rs`: I/O and configuration.

## Findings

| source | as written | input that shows it | evidently intended | confidence | as-written member | corrected member |
|---|---|---|---|---|---|---|
| src/greeting/repository.rs:24-26 | the `INSERT ... VALUES` has no `RETURNING` but runs through `.fetch_one`, which fails with `RowNotFound` when the statement returns no row | any greeting whose insert succeeds: the row is stored, yet `store` returns `Err(ServiceError::RepoError(..))` | run the insert with `.execute`, so `store` succeeds exactly when the insert does | medium, from sqlx's documented `fetch_one` behaviour; not executed | `Repository.SqlStoreAsWritten`, `Repository.SqlStoreAsWrittenNeverSucceeds` | `Repository.SqlStore` |
