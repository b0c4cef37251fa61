# Company service with a transactional outbox — a Dafny model

The modelled service is a small company CRUD API (dubininme/xm-assessment, written
in Go). Every change to a company is written together with an event record in an
`outbox` table, inside one database transaction. A background processor later
claims unprocessed records, publishes them to Kafka, and marks them processed.

What the model covers:

- **Domain** (`company.dfy`, `params.dfy`, `events.dfy`):
  - the validating constructors of name, description, employee count and company type;
  - the type's `int16` storage code;
  - `NewCompany`;
  - the `Company` object, whose setters change it in place;
  - the update parameters;
  - the three immutable events.
- **Errors** (`errors.dfy`): Go's error values as the core uses them.
  - Sentinel errors, driver errors carrying a SQLSTATE, and `%w` wrapping.
  - The transaction manager's rollback message, which keeps the rollback error as text only.
  - `errors.Is` and `errors.As` over these chains.
- **Database** (`company_table.dfy`, `outbox_table.dfy`, `postgres.dfy`): one object that holds the `companies` map and the `outbox` sequence with its id counter.
  - `TxManager.Do` is split in two. `Begin` snapshots the tables. `End` keeps the work's writes only when the work and the commit both succeed; otherwise it restores the snapshot.
  - A statement issued while a transaction is open belongs to it.
  - Both repositories are methods on this object, with their error mapping.
  - `FOR UPDATE SKIP LOCKED` is a set of ids that other open transactions hold locked.
- **Command service** (`service.dfy`): create, update, get and delete.
  - Validation comes first, outside any transaction.
  - Then, in one transaction, the company write and exactly one outbox append.
  - The faults of begin, statement, insert, rollback and commit are parameters. So are the fresh id and the clock.
- **Outbox processor** (`processor.dfy`):
  - One tick claims a batch, builds one message per record, and publishes before it marks.
  - A finite run of ticks, then the producer is closed.
  - The broker is an all-or-nothing sink whose outcome is a parameter.
  - The invariant `AtLeastOnce` says every processed record's message has been delivered. Each tick preserves it, and so does each plain write.
  - A tick whose calls all succeed, with a batch size of at least one and at least one pending record that no other transaction holds locked, marks at least one pending record. So, with nothing locked elsewhere, enough healthy ticks drain the backlog. With a batch size of 0, with nothing pending, or with every pending row locked elsewhere, a healthy tick marks nothing.
- **Edges**:
  - the request and response mappers (`mapper.dfy`);
  - the status decisions of the company endpoints (`company_handler.dfy`) and of the token endpoint (`auth_handler.dfy`);
  - the `Authorization` header parser (`jwt.dfy`);
  - `strconv.FormatInt`, used for the `outbox_id` header (`decimal.dfy`).

The service calls that handlers receive, and the token generator, are function
parameters. A reply that does not depend on them was decided before the call.

Behaviours of the code worth knowing:

- `ErrNoFieldsToUpdate` is declared but never returned. An update that names no field still runs the transaction, rewrites the row unchanged, and appends a `CompanyUpdated` event (`Mapper.EmptyUpdateRequest`, `Service.EmptyUpdateKeepsCompany`).
- A company created with `Registered = true` is registered in its stored row, and so in the returned company as well.
- The publish-then-mark order gives at-least-once delivery, and duplicates are possible. A mark or commit failure after a successful publish leaves the records unprocessed but delivered, so a later tick publishes them again.
- Events about one company can carry different Kafka keys. `DeleteCompany` publishes its event under the raw path id (internal/domain/company/service.go:144). Create and update publish `c.ID().String()`, the canonical form (internal/domain/company/service.go:43 and :110). `uuid.Parse` also accepts non-canonical spellings: upper case, braces, a `urn:uuid:` prefix. With a uuid-typed id column, such a request finds the row, but its event is keyed differently from the company's other events. The model compares ids as exact strings, so it cannot show this.

## Model

| member | source | states |
|---|---|---|
| Errors.WrapIf | internal/infra/postgres/tx_manager.go:34 | wrapping with `%w` keeps absence and presence of an error and every sentinel `errors.Is` finds |
| Errors.IsUnique | internal/delivery/http/handler/company.go:96-116 | an error chain matches at most one sentinel, so the order of the handlers' `errors.Is` tests never changes the answer |
| Domain.TypeCode | internal/domain/company/company.go:28-41 | the four valid types map to 1..4 and anything else to 0 |
| Domain.TypeFromCode | internal/domain/company/company.go:43-56 | succeeds exactly on 1..4, with a valid type whose code is the input; otherwise `ErrInvalidCompanyType` |
| Domain.TypeCodeRoundTrip | internal/domain/company/company.go:28-56 | decoding the code of a valid type gives the type back |
| Domain.TypeCodeInjective | internal/domain/company/company.go:28-41 | distinct valid types have distinct codes |
| Domain.NewCompanyType | internal/domain/company/company.go:58-66 | accepts exactly the four type names, unchanged; otherwise `ErrInvalidCompanyType` |
| Domain.NewCompanyName | internal/domain/company/company.go:74-82 | accepts exactly 1 to 15 runes, unchanged; otherwise `ErrInvalidCompanyNameLength` |
| Domain.NewCompanyDescription | internal/domain/company/company.go:90-99 | accepts exactly up to 3000 runes, including the empty description |
| Domain.NewEmployeesCount | internal/domain/company/company.go:107-114 | accepts exactly counts of at least 1 |
| Domain.NewCompany | internal/domain/company/company.go:125-155 | succeeds iff all four fields are valid, with the inputs and `registered` false; otherwise the first failing field (name, description, count, type) with its sentinel wrapped |
| Domain.Company.FromState | internal/domain/company/company.go:146-154 | the object holds exactly the given company |
| Domain.Company.Register | internal/domain/company/company.go:181-183 | sets `registered` and changes nothing else |
| Domain.Company.SetRegistered | internal/domain/company/company.go:221-223 | sets `registered` to the argument and changes nothing else |
| Domain.Company.SetName | internal/domain/company/company.go:185-192 | invalid input: the sentinel and no change; valid input: only the name changes; validity is kept |
| Domain.Company.SetDescription | internal/domain/company/company.go:194-201 | same shape as `SetName`, for the description |
| Domain.Company.SetEmployeesCount | internal/domain/company/company.go:203-210 | same shape as `SetName`, for the count |
| Domain.Company.SetType | internal/domain/company/company.go:212-219 | same shape as `SetName`, for the type |
| Params.EmptyIsZeroValue | internal/domain/company/params.go:20-26 | `IsEmpty` holds exactly for the all-absent value; a present empty name, `false` or `0` makes it false |
| Events.EventName | internal/domain/company/events.go:19-91 | each kind has its own fixed name, and the name determines the kind |
| Events.Payload | internal/domain/company/events.go:31-107 | the payload carries the aggregate id and, for created and updated events, the unchanged parameters |
| Events.NewCompanyCreatedEvent | internal/domain/company/events.go:11-17 | name "CompanyCreated", the given id and time, payload id plus the create parameters |
| Events.NewCompanyUpdatedEvent | internal/domain/company/events.go:47-53 | name "CompanyUpdated", the given id and time, payload id plus the update parameters |
| Events.NewCompanyDeletedEvent | internal/domain/company/events.go:82-87 | name "CompanyDeleted", the given id and time, payload only the id |
| Decimal.FormatInt | internal/infra/outbox/processor.go:85 | the rendering is non-empty, starts with '-' exactly for negatives, holds only digits after the sign, and has no leading zero and no "-0" |
| Decimal.FormatIntRoundTrip | internal/infra/outbox/processor.go:85 | parsing the rendering gives the number back |
| Decimal.FormatIntInjective | internal/infra/outbox/processor.go:85 | distinct ids give distinct `outbox_id` header values |
| CompanyTable.ToEntity | internal/infra/postgres/company_repo.go:123-145 | a code outside 1..4 is `ErrInvalidCompanyType` unwrapped; for a code in 1..4 it fails exactly when `NewCompany` does, with that very error wrapped as the cause; success gives a valid company whose row is the input, `registered` included |
| CompanyTable.InvalidStoredNameRecognised | internal/infra/postgres/company_repo.go:130-139 | a stored row with an out-of-range name fails with `ErrInvalidCompanyNameLength` still visible to `errors.Is` |
| CompanyTable.RowRoundTrip | internal/infra/postgres/company_repo.go:26-31 | converting the stored row of any valid company gives the same company back |
| CompanyTable.MapUniqueViolation | internal/infra/postgres/company_repo.go:33-40 | SQLSTATE 23505 on the chain becomes `ErrCompanyNameAlreadyExists`; any other error passes through |
| CompanyTable.WriteKeepsValid | internal/infra/postgres/company_repo.go:26-74 | writing a company whose name no other row holds keeps ids as keys and names unique |
| OutboxTable.Claim | internal/infra/postgres/outbox_repo.go:54-59 | at most `limit` rows and never more than the table holds |
| OutboxTable.Ids | internal/infra/outbox/processor.go:78-88 | the batch's ids in batch order |
| OutboxTable.ClaimSound | internal/infra/postgres/outbox_repo.go:54-59 | each claimed event is the view of an unprocessed row that no other transaction holds locked |
| OutboxTable.ClaimAscending | internal/infra/postgres/outbox_repo.go:57 | the claim is in strictly ascending id order |
| OutboxTable.ClaimLowest | internal/infra/postgres/outbox_repo.go:54-59 | a claimable row left out means the claim is full and every claimed id is lower |
| OutboxTable.ClaimsDisjoint | internal/infra/postgres/outbox_repo.go:59 | a second claim that finds the first claim's rows locked is disjoint from it |
| OutboxTable.ClaimedIdIdentifiesRow | internal/infra/postgres/outbox_repo.go:47-48 | a row whose id the claim returned is the claimed row itself, so marking the claimed ids touches nothing else |
| OutboxTable.Marked | internal/infra/postgres/outbox_repo.go:47-48 | same length and contents; listed ids processed at `now`; every other row unchanged |
| OutboxTable.MarkTwice | internal/infra/postgres/outbox_repo.go:47-48 | marking again keeps the rows processed and overwrites `processed_at` with the later time |
| OutboxTable.MarkNothing | internal/infra/postgres/outbox_repo.go:42-44 | an empty id list changes nothing |
| OutboxTable.MarkedKeepsValid | internal/infra/postgres/outbox_repo.go:47-48 | marking keeps ascending ids and `processed_at` set exactly on processed rows |
| OutboxTable.AppendKeepsValid | internal/infra/postgres/outbox_repo.go:22-38 | appending an unprocessed record under the next id keeps the table valid |
| OutboxTable.Pending | internal/infra/postgres/outbox_repo.go:56 | the number of unprocessed records; zero exactly when every record is processed |
| OutboxTable.PendingShrinks | internal/infra/postgres/outbox_repo.go:47-48 | when no record loses its processed mark, pending records do not grow, and they drop when a pending one is marked |
| OutboxTable.EvolvesTransitive | internal/infra/postgres/outbox_repo.go:22-77 | no deletion and no un-processing compose over several steps |
| OutboxTable.MarkedEvolves | internal/infra/postgres/outbox_repo.go:47-48 | marking deletes nothing, changes no contents and un-processes nothing |
| Postgres.DoResult | internal/infra/postgres/tx_manager.go:38-49 | no error iff work and commit succeed; a work error is returned as is, and after a failed rollback it is still matched by `errors.Is` and `errors.As`; a commit error is wrapped |
| Postgres.Database.Begin | internal/infra/postgres/tx_manager.go:32-35 | a failing begin is returned wrapped and opens nothing; otherwise the tables are snapshotted |
| Postgres.Database.End | internal/infra/postgres/tx_manager.go:38-49 | the result is `DoResult`; writes persist only on full success, else the snapshot is restored; locks are released |
| Postgres.Database.CreateCompany | internal/infra/postgres/company_repo.go:26-44 | the row is stored iff no row has the id or the name; a clash is the conflict sentinel and stores nothing; driver errors go through `MapUniqueViolation` |
| Postgres.Database.UpdateCompany | internal/infra/postgres/company_repo.go:46-74 | overwrites the row with the company's id; missing id is not-found; a name held by another row is the conflict; other rows untouched |
| Postgres.Database.GetCompany | internal/infra/postgres/company_repo.go:76-93 | missing id is not-found; otherwise `ToEntity` of the stored row as a new object |
| Postgres.Database.DeleteCompany | internal/infra/postgres/company_repo.go:95-112 | removes exactly that row, or not-found when there is none; driver errors unmapped |
| Postgres.Database.Publish | internal/infra/postgres/outbox_repo.go:22-39 | a marshal failure or insert failure appends nothing; otherwise exactly one unprocessed record with the event's name, id, serialised payload and time |
| Postgres.Database.MarkProcessed | internal/infra/postgres/outbox_repo.go:41-50 | an empty list is a no-op without a database call; otherwise the outbox becomes `Marked` |
| Postgres.Database.GetUnprocessed | internal/infra/postgres/outbox_repo.go:52-77 | a negative limit is the database's 2201W error; otherwise the result is `Claim`, built by a loop over the rows, and its ids become locked inside a transaction |
| Service.ApplyUpdate | internal/domain/company/service.go:67-101 | succeeds iff every present field is valid; the first invalid field (name, description, count, type) gives its unwrapped sentinel; absent fields and the id are kept; validity is kept |
| Service.EmptyUpdateKeepsCompany | internal/domain/company/service.go:67-101 | an update that names no field keeps the stored company as it is |
| Service.ApplySetters | internal/domain/company/service.go:67-101 | the setter calls leave the object as `ApplyUpdate` of its old state, or return its error |
| Service.CompanyService.CreateCompany | internal/domain/company/service.go:25-59 | invalid input returns the validation error and leaves the database untouched; on success the row and exactly one `CompanyCreated` record are written together; on any failure neither is written; a name clash is recognisable as the conflict; it succeeds exactly when the input is valid, the id and name are free, the event serialises and no database call fails; on success the outbox sequence advances by one; after validation every failure (begin, insert, unique violation, marshal, outbox insert, commit) is returned as its cause wrapped by its context and composed by `DoResult`, so `errors.Is` on the result matches exactly what it matches on the cause |
| Service.CompanyService.UpdateCompany | internal/domain/company/service.go:61-126 | a missing company is still recognised as not-found after wrapping; an invalid field returns its error before any write; on success the row becomes `ApplyUpdate` of the stored company and exactly one `CompanyUpdated` record is appended; on failure nothing changes; it succeeds exactly when the row reads back, every field is valid, the new name is free, the event serialises and no database call fails; the read's error (fault, not-found, invalid stored row) comes back exactly, wrapped as "failed to get company by ID"; after the setters every failure is returned as its cause wrapped by its context and composed by `DoResult`; on success the outbox sequence advances by one |
| Service.CompanyService.GetByID | internal/domain/company/service.go:128-135 | succeeds exactly when the row exists and converts, returning that company; every repository error (driver fault, not-found, invalid stored row) comes back wrapped as "failed to get company by ID" |
| Service.CompanyService.DeleteCompany | internal/domain/company/service.go:137-151 | on success the row is gone and exactly one `CompanyDeleted` record is appended; on failure nothing changes; a missing id is recognisable as not-found; it succeeds exactly when the row exists, the event serialises and no database call fails; every failure (begin, delete, not-found, marshal, outbox insert, commit) is returned as its cause wrapped by its context and composed by `DoResult`; on success the outbox sequence advances by one |
| OutboxProcessor.MessageOf | internal/infra/outbox/processor.go:80-87 | key is the aggregate id, value the payload, headers `event_name` and the decimal `outbox_id` |
| OutboxProcessor.Messages | internal/infra/outbox/processor.go:77-89 | one message per event, in order |
| OutboxProcessor.OutboxIdHeaderRoundTrip | internal/infra/outbox/processor.go:85 | the record id can be read back from the `outbox_id` header |
| OutboxProcessor.DistinctIdsDistinctMessages | internal/infra/outbox/processor.go:85 | records with distinct ids give distinct messages |
| OutboxProcessor.DeliverThenMarkKeepsAtLeastOnce | internal/infra/outbox/processor.go:94-102 | delivering a claimed batch and then marking its ids keeps every processed record delivered |
| OutboxProcessor.AppendKeepsAtLeastOnce | internal/infra/postgres/outbox_repo.go:22-38 | appending an unprocessed record, with or without more deliveries, keeps every processed record delivered |
| OutboxProcessor.AtLeastOnceGrows | internal/infra/outbox/processor.go:94-97 | a delivery without a mark keeps the invariant |
| OutboxProcessor.Broker.PublishBatch | internal/infra/kafka/producer.go:68-73 | the whole batch is delivered, or nothing and the writer's error wrapped |
| OutboxProcessor.Broker.Close | internal/infra/kafka/producer.go:75-77 | the producer is closed and the writer's close error returned |
| OutboxProcessor.StepEvolves | internal/infra/outbox/processor.go:64-107 | a tick deletes nothing, changes no contents, un-processes nothing and keeps the ascending order |
| OutboxProcessor.HealthyTickProgress | internal/infra/outbox/processor.go:64-107 | a tick whose calls all succeed, with a batch size of at least one and a row nobody else has locked, leaves strictly fewer records pending |
| OutboxProcessor.HealthyRunDrains | internal/infra/outbox/processor.go:42-62 | with nothing locked by others and every call succeeding, as many ticks as there are pending records publish and mark them all |
| OutboxProcessor.Processor.BuildBatch | internal/infra/outbox/processor.go:77-89 | the loop builds exactly `Messages` and `Ids` of the claimed events |
| OutboxProcessor.Processor.Work | internal/infra/outbox/processor.go:67-106 | returns nil exactly when the claim succeeds and is empty or its publish and mark succeed; the claim error is wrapped; an empty claim returns nil and changes nothing; the publish happens before the mark; on success the outbox is `Marked` by the claimed ids and the broker got the batch; on failure the outbox is unchanged |
| OutboxProcessor.Processor.ProcessBatch | internal/infra/outbox/processor.go:64-107 | returns nil exactly when begin, claim, publish (for a non-empty batch), mark and commit succeed; the outbox becomes `Step` of the old one: on success exactly the claimed records become processed after their messages were delivered, on any failure no record changes; the broker gets the whole batch once begin, claim and publish succeed, else nothing; `AtLeastOnce` is preserved |
| OutboxProcessor.Processor.Start | internal/infra/outbox/processor.go:42-62 | every tick is attempted whatever the previous one returned: the outbox ends as `Run` (the fold of `Step`) over the ticks and the broker has received `RunDelivers`; companies and the outbox sequence untouched, outbox only evolves, `AtLeastOnce` preserved; the producer ends closed with its close error returned |
| Mapper.CompanyToResponse | internal/delivery/http/handler/mapper.go:8-24 | copies id, name, count, registered and type; the description is present iff non-empty |
| Mapper.ResponseRoundTrip | internal/delivery/http/handler/mapper.go:17-20 | omitting the empty description loses nothing: the response determines the company |
| Mapper.CreateRequestToParams | internal/delivery/http/handler/mapper.go:25-37 | copies the fields; an absent description becomes "" |
| Mapper.CreateEchoesRequest | internal/delivery/http/handler/mapper.go:25-37 | a created company is answered with the request's own fields, a present empty description as omitted |
| Mapper.UpdateRequestToParams | internal/delivery/http/handler/mapper.go:39-63 | each field is present iff it is present in the request, with the same value |
| Mapper.EmptyUpdateRequest | internal/delivery/http/handler/mapper.go:39-63 | a request names no field exactly when the parameters it becomes are empty |
| CompanyHandler.NotFoundOrInternal | internal/delivery/http/handler/company.go:33-38 | 404 exactly for a not-found error, else 500 |
| CompanyHandler.GetCompany | internal/delivery/http/handler/company.go:22-43 | 400 for a bad id before the service; 200 with the mapped company; 404 exactly for not-found; else 500 |
| CompanyHandler.CreateErrorStatus | internal/delivery/http/handler/company.go:54-71 | 409 for the conflict, tested first; then 400 for a validation error; else 500 |
| CompanyHandler.CreateCompany | internal/delivery/http/handler/company.go:45-75 | 400 for an undecodable body before the service; 201 with the mapped company; else `CreateErrorStatus` |
| CompanyHandler.UpdateErrorStatus | internal/delivery/http/handler/company.go:94-116 | 404, then 409, then 400, then 500, in that order of tests |
| CompanyHandler.UpdateCompany | internal/delivery/http/handler/company.go:77-120 | 400 for a bad id or body before the service; 200 with the mapped company; else `UpdateErrorStatus` |
| CompanyHandler.DeleteCompany | internal/delivery/http/handler/company.go:122-143 | 400 for a bad id; 204 with no body on success; else 404 or 500 |
| CompanyHandler.RejectedBeforeService | internal/delivery/http/handler/company.go:26-29 | a bad id gets the same reply whatever the service would do |
| CompanyHandler.StatusOfSentinel | internal/delivery/http/handler/company.go:94-116 | each sentinel gets its own status from the update and create chains; a not-found error in the create chain would be a 500 |
| CompanyHandler.RollbackFailureKeepsStatus | internal/infra/postgres/tx_manager.go:39-41 | an error after a failed rollback gets the same status as the work's error |
| CompanyHandler.InvalidCreateIsBadRequest | internal/delivery/http/handler/company.go:61-67 | invalid create input, as the service reports it wrapped, is answered 400 |
| Jwt.FirstSpace | internal/infra/auth/jwt.go:78 | the index of the first space, or the length when there is none |
| Jwt.SplitAtSpace | internal/infra/auth/jwt.go:78 | no parts without a space; otherwise the space-free head and the tail rebuild the input |
| Jwt.ExtractToken | internal/infra/auth/jwt.go:73-84 | empty header: missing-header error; any other rejected header: invalid-format error; accepted exactly when the header is a case variant of "bearer", a space and the token, which is returned unchanged; every error comes with an empty token |
| Jwt.BearerRoundTrip | internal/infra/auth/jwt.go:78-83 | "Bearer " followed by any token gives that token, even an empty one or one with spaces |
| Jwt.SchemeCaseInsensitive | internal/infra/auth/jwt.go:79 | any letter case of "bearer" is accepted |
| Jwt.NoSpaceRejected | internal/infra/auth/jwt.go:78-81 | a non-empty header without a space is the invalid-format error |
| AuthHandler.GenerateToken | internal/delivery/http/handler/auth.go:35-74 | 400 for an undecodable body, then an empty user id, then an empty password; 401 for any other password than the demo one; 200 with the token the generator gives for the user and one hour exactly when it succeeds; 500 when it fails |
| AuthHandler.RejectedBeforeGenerating | internal/delivery/http/handler/auth.go:37-57 | a 400 or 401 reply does not depend on the generator: no token is generated |
| AuthHandler.MissingPasswordRejected | internal/delivery/http/handler/auth.go:47-50 | a request with no password is a 400 whatever the user id |

## Left out

- Concurrency: the processor's ticker, `select` on the context, goroutines and signal handling. `Start` is a finite sequence of ticks. Concurrent processors are reduced to the set of ids that other transactions hold locked.
- The read in `UpdateCompany` happens before the transaction. Another writer could change the row in between; that race is not modelled, because the model is sequential.
- `ExtractExecutor` (internal/infra/postgres/tx_manager.go:52-57) is not a member. Every statement acts on the one `Database` object, and it belongs to the open transaction when there is one: its write is undone by `End` if the transaction does not commit.
- SQL text, the drivers and connection handling. The tables are a map and a sequence. Driver failures, including a failing `RowsAffected`, a `Scan` or `rows.Err()`, are a single fault parameter per statement.
- The unique constraint on name (and the primary key on id), the `is_processed` default and the id sequence are taken from how the code uses them; the schema is not part of this model.
- Postgres sequence gaps: an insert that is rolled back still consumes a sequence value in Postgres. The model restores the counter with the snapshot, so ids have no gaps. No property here depends on ids being consecutive.
- `rows.Err()` after a partial scan returns rows together with an error. The model returns no rows with the error; the processor discards them either way.
- JSON encoding and decoding. Marshalling is a possibly failing function from payloads to bytes. An undecodable request body is the value `None`.
- The clock (`time.Now`), `uuid.New`, `uuid.Parse` and `uuid.MustParse`. They are parameters: `now`, `newId`, `idValid`. `ToEntity`'s panic on a malformed stored id is not modelled.
- Kafka: hash partitioning, the publish timeout and the writer itself (internal/infra/kafka/producer.go). `PublishBatch` is all-or-nothing with an outcome parameter.
- JWT signing and validation (`GenerateToken`, `ValidateToken` in internal/infra/auth/jwt.go), and the auth middleware. The token generator is a function parameter.
- Response writing, error message texts, logging, configuration, routing, the health endpoint, and cmd/api/main.go. main.go calls `NewProcessor` with five arguments, although internal/infra/outbox/processor.go:24-31 takes six; the model follows processor.go.
- The integration test (internal/delivery/http/handler/company_integration_test.go:123-126) requests a token without a password. The handler answers that with 400 (`AuthHandler.MissingPasswordRejected`).
- Integer widths: counts, ids and timestamps are unbounded integers. Only the type code is an `int16`.
- Strings are sequences of runes, so lengths are rune counts, as `utf8.RuneCountInString` gives. Invalid UTF-8 is not modelled. The mapper's byte-length test `len(desc) > 0` agrees with the rune count on emptiness.
- Postgres.Database.End: a failed commit is taken to have persisted nothing, so the snapshot is restored. Over `database/sql`, a COMMIT whose reply is lost may in fact have been applied. The contracts that rest on this, the service's "on failure nothing changes" and `ProcessBatch`'s "on any failure no record changes", are stated for a commit that did not take effect. `AtLeastOnce` holds either way, because the publish comes before the commit.
- Jwt.ExtractToken: the scheme is lower-cased for ASCII letters only, where `strings.ToLower` is Unicode-aware. For the comparison with "bearer" this makes no difference, since no non-ASCII character lower-cases to b, e, a or r.
