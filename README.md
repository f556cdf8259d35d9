# Event management in CQRS style — a Dafny model

This project models the write and read core of a small event-management
system built in the Command/Query Responsibility Segregation style. It covers:

- **Value objects and the `Event` aggregate.** `Money` and `Location` check
  themselves on construction. `Event.create` and `update` apply six ordered
  business rules, and `publish` sets a flag. The aggregate keeps a list of
  pending domain events.
- **Domain-event envelopes and the in-memory publisher.** The publisher maps
  an `eventType` to a list of handlers. Fan-out is failure-isolated.
- **Commands, queries, their handlers and the two buses.** Each bus maps a
  `type` tag to a handler and throws on an unknown tag. The command
  handlers turn a thrown error or a missing id into a failed result. The
  query handlers turn a thrown error into a failed result and a missing id
  into a success with no data.
- **The repositories.**
  - A closed union stands for `IEventRepository`. Its members are the
    in-memory repository and three SQLite write repositories:
    - `EventCommandRepository`, which publishes domain events to a read
      projection;
    - `BunSQLiteEventCommandRepository`, which upserts and then syncs;
    - `SQLiteEventCommandRepository`, which runs update-then-insert and
      then `INSERT OR REPLACE`.
  - A read-side query repository.
- **The two containers and the service façade.** The containers wire the
  buses. The façade fills in form defaults, turns a failed result into a
  thrown error, and falls back to `[]` for failed queries.

Each SQLite database file is a `Table` object holding its `events` table as
a map from primary key to row. A flag marks a file on which every statement
fails. Dates are integer timestamps. An `Oracle` value supplies everything
the program draws from outside:

- `new Date()` (`now`);
- SQLite's `CURRENT_TIMESTAMP` (`stamp`);
- `crypto.randomUUID()` (`uuid`);
- the random `evt_…` envelope ids.

Promise-returning operations are modelled as sequential methods. A thrown
`Error(msg)` is an `Err(msg)` / `Fail(msg)` carrying the same message.

Each stateful part of the code is a class whose methods are proved against
a pure specification function. These include:

- `Event.Update` against `ValidateEventData`;
- `Publisher.Publish` against `Deliver`;
- the `Save` methods against `PublishingSave`, `BunSave` and `SqliteSave`;
- `HandleCreate`/`HandleUpdate`/`HandlePublish` against
  `Created`/`Updated`/`Published`;
- the bus `Execute` methods against `Handled` and `IsAnswer`;
- the service methods against the same functions.

Lemmas then relate those functions to each other: round trips, "saved then
found", idempotence, failure isolation, ordering of read queries, and what
each error path leaves unchanged.

What the code does, which its names alone do not tell:

- `Event.update` does not diff fields and records no domain event. Every
  `EventUpdated` the publishing repository emits carries the fixed change
  list `['name', 'description']`.
- `publish` has no already-published guard. The publish handler always
  saves and then broadcasts.
- No repository drains the aggregate's pending domain events. The
  publishing repository builds its envelopes from the aggregate's fields.
- `publishAll` and the per-event fan-out run in order. The handler bodies
  are synchronous, so `Promise.all` behaves as a loop.
- Replaying `EventCreated` against the read table fails on the duplicate
  id, and the publisher swallows the failure. The read row is unchanged, so
  the replay is idempotent in effect, not by an upsert.
- `SQLiteEventCommandRepository` syncs the read row with
  `INSERT OR REPLACE`. This resets its `created_at` on every save, so the
  read model's newest-first order is by last save
  (`SqliteStore.ResaveResetsReadCreatedAt`).

## Model

| member | source | states |
|---|---|---|
| ValueObjects.EventIdEquals | src/domain/value-objects.ts:9-11 | two event ids are equal exactly when they are the same id (so equality is reflexive and symmetric) |
| ValueObjects.OrganizerIdEquals | src/domain/value-objects.ts:21-23 | two organizer ids are equal exactly when they are the same id |
| ValueObjects.EventType.Value | src/domain/value-objects.ts:26-29 | the stored string is 'public' or 'private', and 'public' exactly for `PUBLIC` |
| ValueObjects.TicketType.Value | src/domain/value-objects.ts:31-34 | the stored string is 'free' or 'paid', and 'free' exactly for `FREE` |
| ValueObjects.NewMoney | src/domain/value-objects.ts:36-44 | fails with 'Amount cannot be negative' exactly when amount < 0 (0 is accepted); otherwise keeps the amount and the given currency, 'PLN' when none is given |
| ValueObjects.MoneyEquals | src/domain/value-objects.ts:46-48 | true exactly when both amount and currency agree |
| ValueObjects.NewLocation | src/domain/value-objects.ts:51-59 | succeeds exactly when online or the address is non-empty, else fails with 'Event must have either address or be online'; `isOnline` defaults to false |
| ValueObjects.LocationRoundTrip | src/domain/value-objects.ts:51-59 | every accepted location is rebuilt unchanged by the constructor |
| ValueObjects.MoneyRoundTrip | src/domain/value-objects.ts:36-44 | every accepted amount of money is rebuilt unchanged by the constructor |
| EventAggregate.TrimStartIsSuffix | src/domain/event.ts:98-104 | `trim`'s leading strip removes exactly the leading run of ECMAScript whitespace |
| EventAggregate.TrimEndIsPrefix | src/domain/event.ts:98-104 | `trim`'s trailing strip removes exactly the trailing run of whitespace |
| EventAggregate.BlankIffAllWhitespace | src/domain/event.ts:98-104 | `!s.trim()` holds exactly when every character of `s` is whitespace |
| EventAggregate.ValidateEventData | src/domain/event.ts:90-121 | the reported rule is violated and every earlier rule in code order is not; no rule is reported exactly when none is violated |
| EventAggregate.AcceptedPricing | src/domain/event.ts:106-120 | accepted details have now <= start < end, a paid event has a price > 0 and a free event has no price or price 0 |
| EventAggregate.ValidationIgnoresLocationAndType | src/domain/event.ts:90-97 | validation does not depend on the location or the event type |
| EventAggregate.Event.constructor | src/domain/event.ts:33-45 | the new aggregate holds exactly the given fields and no pending domain events |
| EventAggregate.Event.Create | src/domain/event.ts:47-88 | fails with the first violated rule's message; otherwise a fresh, unpublished aggregate with the new id, the given organizer and details, and exactly one pending `EventCreated` carrying the same data |
| EventAggregate.Event.Update | src/domain/event.ts:123-143 | a failed validation changes nothing; a passed one sets exactly the eight editable fields, leaving id, organizer, publication and pending events alone |
| EventAggregate.Event.Publish | src/domain/event.ts:145-147 | sets `isPublished` and changes nothing else, so a second publish leaves the same state |
| EventAggregate.Event.AddDomainEvent | src/domain/event.ts:149-151 | appends the event to the pending list and changes no field |
| EventAggregate.Event.GetDomainEvents | src/domain/event.ts:153-155 | returns a list equal to the pending events |
| EventAggregate.Event.ClearDomainEvents | src/domain/event.ts:157-159 | empties the pending list and changes no field |
| EventPublisher.Subscribed | src/domain/domain-events.ts:104-109 | the handler is appended at the end of its type's list; every other type's list is unchanged |
| EventPublisher.Calls | src/domain/domain-events.ts:114-122 | publishing to a list of handlers invokes each handler once, in order, with the event |
| EventPublisher.DeliverAppend | src/domain/domain-events.ts:117-124 | running two handler lists in turn equals running their concatenation |
| EventPublisher.FailureIsolated | src/domain/domain-events.ts:117-124 | a failing handler leaves the table as it was and the later handlers run as if it were not subscribed |
| EventPublisher.PublishAllStep | src/domain/domain-events.ts:128-131 | publishing one more event extends the table history and the invocation log by that event's handlers |
| EventPublisher.Publisher.constructor | src/domain/domain-events.ts:101-102 | a new publisher has no subscriptions |
| EventPublisher.Publisher.Subscribe | src/domain/domain-events.ts:104-109 | the subscriptions become `Subscribed(old, type, handler)` |
| EventPublisher.Publisher.RunHandler | src/domain/domain-events.ts:117-122 | one handler runs on the event and its failure is swallowed |
| EventPublisher.Publisher.Publish | src/domain/domain-events.ts:111-126 | exactly the handlers under the event's type run, each once, in order; with none it is a no-op; it never fails and keeps the subscriptions |
| EventPublisher.Publisher.PublishAll | src/domain/domain-events.ts:128-131 | every event of the batch is published, in order |
| Commands.CommandTypesDistinct | src/application/commands.ts:8-50 | two commands share a tag exactly when they are of the same class |
| Commands.WithDefaults | src/application/commands.ts:11-23 | an omitted `isOnline`, `eventType`, `ticketType` or `currency` becomes false, `PUBLIC`, `FREE` or 'PLN'; the address and `ticketPrice` stay absent |
| Commands.GivenParametersKept | src/application/commands.ts:29-41 | parameters that are given are kept as given |
| Queries.QueryTypesDistinct | src/application/queries.ts:8-22 | two queries share a tag exactly when they are of the same class |
| CommandHandlers.FormDetails | src/application/command-handlers.ts:24-30 | a bad location fails with its message; a price is built only when given, and a negative one fails; otherwise the details are the form's, with `Money(price, currency)` |
| CommandHandlers.PublishedEnvelope | src/application/command-handlers.ts:129-134 | the broadcast envelope is an `EventPublished` about the published event's id |
| CommandHandlers.LoadedUnderOwnId | src/application/command-handlers.ts:64-65 | an aggregate that `findById` loads has the id asked for and its row's organizer |
| CommandHandlers.UnknownIdChangesNothing | src/application/command-handlers.ts:62-72 | update and publish on an unknown id fail with 'Event not found', save nothing and broadcast nothing |
| CommandHandlers.RejectedFormNotSaved | src/application/command-handlers.ts:22-55 | a form rejected by a value object or by validation fails with that message and saves nothing, on create and on update |
| CommandHandlers.CreateThenFind | src/application/command-handlers.ts:32-49 | a successful create answers the fresh id and the new unpublished aggregate is then found under it with the form's details |
| CommandHandlers.UpdateThenFind | src/application/command-handlers.ts:81-97 | a successful update answers the id, and the aggregate is found with the new details and the old id, organizer and publication flag |
| CommandHandlers.PublishThenFind | src/application/command-handlers.ts:125-141 | a successful publish answers the id, the aggregate is found published and otherwise unchanged, and with no publisher nothing is broadcast |
| CommandHandlers.SubscribersPreserveLoad | src/application/command-handlers.ts:129-136 | broadcasting through the repository's own publisher cannot change what `findById` sees |
| CommandHandlers.PublishTwiceIsOnce | src/application/command-handlers.ts:125-126 | publishing an event a second time leaves the in-memory repository as the first publish left it |
| CommandHandlers.BroadcastOnlyOnSuccess | src/application/command-handlers.ts:125-136 | a failed publish broadcasts nothing; a successful one delivers exactly one `EventPublished` to the injected publisher |
| CommandHandlers.HandleCreate | src/application/command-handlers.ts:22-56 | answer and repository state are those `Created` specifies |
| CommandHandlers.HandleUpdate | src/application/command-handlers.ts:62-104 | answer and repository state are those `Updated` specifies |
| CommandHandlers.HandlePublish | src/application/command-handlers.ts:113-148 | answer, repository state and broadcast are those `Published` specifies |
| CommandHandlers.LoadInWorld | src/application/command-handlers.ts:115-116 | loads what `Loaded` specifies, yields a fresh aggregate, and changes nothing |
| CommandHandlers.PublishFound | src/application/command-handlers.ts:125-141 | publish, then save, then broadcast only after a successful save |
| CommandHandlers.SaveInWorld | src/application/command-handlers.ts:126 | a save through the handler changes the repository as `Saved` specifies and leaves the broadcast state alone |
| CommandHandlers.BroadcastPublished | src/application/command-handlers.ts:129-136 | the envelope is published only when a publisher was injected |
| CommandHandlers.Handle | src/application/command-handlers.ts:15-17 | a handler answers its command as `Handled` specifies |
| EventRepositories.SavedThenLoaded | src/domain/repositories.ts:6-7 | after a successful save, `findById` finds exactly the saved aggregate (on SQLite: when the row holds it faithfully and the owner is unchanged) |
| EventRepositories.RepositorySaveFailure | src/infrastructure/repositories.ts:203-206 | a save fails exactly on a SQLite repository whose write database fails, and then changes nothing |
| EventRepositories.Save | src/domain/repositories.ts:6 | each implementation's save leaves the state `Saved` specifies |
| EventRepositories.FindById | src/domain/repositories.ts:7 | answers what `Loaded` specifies, as a fresh aggregate with no pending events |
| EventRepositories.FindWhere | src/domain/repositories.ts:8-9 | answers a listing `IsRepoListing` allows: each selected aggregate once, in any order, or the error thrown |
| InMemoryStore.SelectEvents | src/domain/repositories.ts:8-9 | the result holds every selected stored event exactly once and nothing else |
| InMemoryStore.InMemoryEventRepository.constructor | src/infrastructure/cqrs.ts:55 | a new repository is empty |
| InMemoryStore.InMemoryEventRepository.Save | src/domain/repositories.ts:6 | stores the aggregate's state under its id, replacing any earlier one and leaving the others |
| InMemoryStore.InMemoryEventRepository.FindById | src/domain/repositories.ts:7 | finds an aggregate exactly when one is stored under the id, as a fresh copy of it |
| InMemoryStore.InMemoryEventRepository.FindByOrganizer | src/domain/repositories.ts:8 | exactly that organizer's events, each once |
| InMemoryStore.InMemoryEventRepository.FindPublishedEvents | src/domain/repositories.ts:9 | exactly the published events, each once |
| SqlTable.Lookup | src/infrastructure/repositories.ts:342-346 | fails exactly on a failing database; finds a row exactly when one is stored under the id, and that row carries the id |
| SqlTable.UpsertKeepsOwner | src/infrastructure/repositories.ts:146-172 | after the upsert exactly one row has the id; it holds the new values except `organizer_id` and `created_at`, which keep their first values; no other row changes |
| SqlTable.UpsertIdempotent | src/infrastructure/bun-sqlite-repositories.ts:124-150 | upserting the same values again changes nothing but `updated_at` |
| SqlTable.FirstExists | src/infrastructure/repositories.ts:373-389 | every non-empty set of rows has one that an `ORDER BY` may put first |
| SqlTable.ArrangeKeys | src/infrastructure/repositories.ts:373-389 | lists the given keys each once and in an order the `ORDER BY` allows |
| SqlTable.Table.constructor | src/infrastructure/repositories.ts:37-40 | a freshly created `events` table is empty |
| SqlTable.Table.Insert | src/infrastructure/repositories.ts:241-263 | a plain `INSERT`: adds the row, or fails on a duplicate id or a failing database and changes nothing |
| SqlTable.Table.Upsert | src/infrastructure/repositories.ts:146-172 | the state becomes the upsert's result, or stays on failure |
| SqlTable.Table.UpdateContent | src/infrastructure/sqlite-repositories.ts:135-142 | the prepared `UPDATE` without `organizer_id`, reporting how many rows it changed |
| SqlTable.Table.UpdateAll | src/infrastructure/repositories.ts:266-298 | the projection's `UPDATE` of every column of an existing row |
| SqlTable.Table.Replace | src/infrastructure/sqlite-repositories.ts:193-206 | `INSERT OR REPLACE`: a new row with fresh timestamps replaces any old one |
| SqlTable.Table.MarkPublished | src/infrastructure/repositories.ts:230-231 | sets only `is_published` (and `updated_at`) of the named row |
| SqlTable.Table.Select | src/infrastructure/repositories.ts:348-358 | exactly the matching rows, each once, in an order the `ORDER BY` allows, or the database's error |
| RowMapping.StoredRowLoads | src/infrastructure/repositories.ts:76-113 | every row `eventToRow` writes can be read back by `eventFromRow` |
| RowMapping.EventRoundTrip | src/infrastructure/repositories.ts:76-113 | aggregate to row and back is the identity exactly when the address is not empty and a price has a non-zero amount and a non-empty currency |
| RowMapping.ZeroPriceLost | src/infrastructure/repositories.ts:97-113 | an event with price 0 is read back without a price |
| RowMapping.RowRoundTrip | src/infrastructure/repositories.ts:76-113 | row to aggregate and back is the identity exactly on rows `eventToRow` can produce |
| ReadProjection.Project | src/infrastructure/repositories.ts:209-306 | each projection handler runs its statement on the query database (insert, update all columns, or set the published flag) |
| ReadProjection.CreatedReplayFails | src/infrastructure/repositories.ts:241-263 | a created read row holds the payload, and replaying the same `EventCreated` fails on the duplicate id |
| ReadProjection.UpdateOverwritesRow | src/infrastructure/repositories.ts:266-298 | an update projection overwrites every column of the row, `organizer_id` and `is_published` included, and no other row |
| ReadProjection.PublishedChangesOnlyFlag | src/infrastructure/repositories.ts:222-233 | a publish projection sets only `is_published` of the row `aggregateId` |
| EventCommandStore.SnapshotRowIsEventRow | src/infrastructure/repositories.ts:177-193 | the projection binds the same column values as the write upsert |
| EventCommandStore.OwnSubscriptionsOnFreshPublisher | src/infrastructure/repositories.ts:124-135 | on a fresh publisher each domain-event type has exactly its own projection handler |
| EventCommandStore.SaveFailsOnlyOnWriteDb | src/infrastructure/repositories.ts:203-206 | a save fails exactly when the write database does, and then publishes nothing and changes nothing |
| EventCommandStore.SaveEnvelopeCarriesEvent | src/infrastructure/repositories.ts:177-201 | the envelope `save` publishes carries a payload, version 1, the saved event's id as aggregate id, `EventUpdated` exactly for an update and `EventCreated` otherwise, the oracle's envelope id and time; `eventFromRow` recovers the saved event from its payload exactly when the event's own row round-trips |
| EventCommandStore.SaveClassifiesUpdate | src/infrastructure/repositories.ts:136-201 | on a working write database `save` succeeds and delivers one envelope about the saved event to the subscribed handlers; it is `EventUpdated`, with changes ['name', 'description'], exactly when a row with the id existed before the upsert, and `EventCreated` otherwise |
| EventCommandStore.ReadRowMirrorsWriteRow | src/infrastructure/repositories.ts:136-207 | with its own projections, a successful save leaves the read row equal to the write row |
| EventCommandStore.EventCommandRepository.constructor | src/infrastructure/repositories.ts:124-135 | uses the injected publisher or a fresh one and subscribes the three projection handlers to it |
| EventCommandStore.EventCommandRepository.Save | src/infrastructure/repositories.ts:136-207 | the outcome and both tables are those `PublishingSave` specifies |
| QueryStore.DtoById | src/infrastructure/repositories.ts:367-371 | fails exactly on a failing database; returns a DTO exactly when a row has the id, and that DTO carries it |
| QueryStore.ListedDtosMatch | src/infrastructure/repositories.ts:373-383 | every DTO of a listing belongs to the asked organizer, or is published |
| QueryStore.QueryRepository.constructor | src/infrastructure/repositories.ts:362-365 | the repository reads the given query database |
| QueryStore.QueryRepository.FindById | src/infrastructure/repositories.ts:367-371 | answers what `DtoById` specifies |
| QueryStore.QueryRepository.FindByOrganizer | src/infrastructure/repositories.ts:373-377 | exactly that organizer's rows, newest `created_at` first |
| QueryStore.QueryRepository.FindPublishedEvents | src/infrastructure/repositories.ts:379-383 | exactly the published rows, earliest `start_date` first |
| QueryStore.QueryRepository.FindAllEvents | src/infrastructure/repositories.ts:385-389 | every row, newest `created_at` first |
| SqliteFinders.LoadEvent | src/infrastructure/repositories.ts:342-346 | none for a missing row, the mapped aggregate for a stored one, or the error thrown by the database or by `eventFromRow` |
| SqliteFinders.MapRows | src/infrastructure/repositories.ts:348-352 | every row mapped in order, or the first error `eventFromRow` throws |
| SqliteFinders.FindEventById | src/infrastructure/bun-sqlite-repositories.ts:242-246 | a fresh aggregate built from the write row, none, or the error |
| SqliteFinders.FindEventsWhere | src/infrastructure/bun-sqlite-repositories.ts:248-258 | exactly the matching write rows, each once, in no specified order, mapped to aggregates |
| BunSqliteStore.BunSaveOutcome | src/infrastructure/bun-sqlite-repositories.ts:119-206 | a save fails exactly when the write database does, changing nothing; a failing read database is skipped without failing the save |
| BunSqliteStore.BunReadRowMirrorsWriteRow | src/infrastructure/bun-sqlite-repositories.ts:162-206 | when both databases work, the read row is upserted with the same values as the write row |
| BunSqliteStore.BunSaveIdempotent | src/infrastructure/bun-sqlite-repositories.ts:124-198 | saving the same aggregate twice leaves both tables as once, apart from `updated_at` |
| BunSqliteStore.BunSqliteEventCommandRepository.constructor | src/infrastructure/bun-sqlite-repositories.ts:115-117 | the repository writes the given database and syncs to the given query database |
| BunSqliteStore.BunSqliteEventCommandRepository.Save | src/infrastructure/bun-sqlite-repositories.ts:119-160 | the outcome and both tables are those `BunSave` specifies |
| SqliteStore.UpdateThenInsertIsUpsert | src/infrastructure/sqlite-repositories.ts:149-169 | update-then-insert leaves the write database exactly as the upsert does, with the same outcome |
| SqliteStore.ReadRowReplaced | src/infrastructure/sqlite-repositories.ts:181-214 | on a working read database the read row becomes a full copy of the write row's values, and no other read row changes |
| SqliteStore.ResaveResetsReadCreatedAt | src/infrastructure/sqlite-repositories.ts:193-206 | saving again keeps the write row but moves the read row's `created_at` to the second save |
| SqliteStore.SqliteEventCommandRepository.constructor | src/infrastructure/sqlite-repositories.ts:121-124 | the repository writes the given database and syncs to the given query database |
| SqliteStore.SqliteEventCommandRepository.Save | src/infrastructure/sqlite-repositories.ts:149-179 | the outcome and both tables are those `SqliteSave` specifies |
| QueryHandlers.MapToDto | src/application/query-handlers.ts:39-59 | the DTO has a ticket price exactly when the aggregate does |
| QueryHandlers.MapToDtoInjective | src/application/query-handlers.ts:39-59 | `mapToDto` loses nothing: equal DTOs come from equal aggregates |
| QueryHandlers.MapAll | src/application/query-handlers.ts:68-73 | the list is mapped element-wise, with the same length and order |
| QueryHandlers.ReadModelAgrees | src/infrastructure/repositories.ts:391-410 | the read model's DTO of a stored aggregate equals `mapToDto` exactly when the row holds it faithfully |
| QueryHandlers.FoundById | src/application/query-handlers.ts:19-37 | fails exactly when `findById` throws, with its message; answers success with no data exactly when the id is missing; answers the found aggregate's `mapToDto` DTO when one is found |
| QueryHandlers.ListedEventsMatch | src/application/query-handlers.ts:62-122 | a successful list answer holds only that organizer's events, or only published ones |
| QueryHandlers.SavedThenQueried | src/application/query-handlers.ts:22-30 | after a successful save, `GetEventById` answers the saved aggregate's DTO |
| QueryHandlers.ReadModelCatchesUp | src/infrastructure/bun-sqlite-repositories.ts:162-206 | after a Bun save with both databases working, the read model and the write side answer `GetEventById` with the same DTO |
| QueryHandlers.GetEventById | src/application/query-handlers.ts:19-37 | answers what `FoundById` specifies |
| QueryHandlers.GetEvents | src/application/query-handlers.ts:62-122 | answers the repository's listing mapped by `mapToDto`, or its error |
| QueryHandlers.HandleQuery | src/application/query-handlers.ts:15-206 | each handler answers its query as `IsAnswer` specifies: a write-side handler as `GetEventById`/`GetEvents` do, while the read-model handlers pass the query repository's answer (`null` included) through unchanged, and a thrown error becomes a failure; the handlers of `src/application/sqlite-query-handlers.ts` do the same over the Bun query repository |
| Cqrs.CommandBus.constructor | src/infrastructure/cqrs.ts:14-15 | a new bus has no handlers |
| Cqrs.CommandBus.Register | src/infrastructure/cqrs.ts:17-19 | the handler replaces any earlier one for the tag, and other tags are unchanged |
| Cqrs.CommandBus.Execute | src/infrastructure/cqrs.ts:21-28 | an unregistered tag throws 'No handler registered for command type: <tag>'; otherwise the registered handler's answer and effect |
| Cqrs.QueryBus.constructor | src/infrastructure/cqrs.ts:31-32 | a new bus has no handlers |
| Cqrs.QueryBus.Register | src/infrastructure/cqrs.ts:34-36 | the handler replaces any earlier one for the tag, and other tags are unchanged |
| Cqrs.QueryBus.Execute | src/infrastructure/cqrs.ts:38-45 | an unregistered tag throws 'No handler registered for query type: <tag>'; otherwise the registered handler's answer |
| Cqrs.CommandHandlersOver | src/infrastructure/cqrs.ts:62-66 | exactly the three command tags, each under the handler serving it, all over one repository |
| Cqrs.QueryHandlersOver | src/infrastructure/cqrs.ts:68-71 | exactly the three query tags, each under the write-side handler serving it, all over the same repository |
| Cqrs.EveryRequestRouted | src/infrastructure/cqrs.ts:62-72 | once the six tags are registered, every command and every query has a handler |
| Cqrs.Container.constructor | src/infrastructure/cqrs.ts:54-72 | a fresh empty in-memory repository behind all six handlers, with no publisher |
| SqliteCqrs.ReadModelHandlersOver | src/infrastructure/sqlite-cqrs.ts:76-79 | exactly the three query tags, each under the read-model handler serving it, all over the query repository |
| SqliteCqrs.SqlitePublishBroadcastsNothing | src/infrastructure/sqlite-cqrs.ts:74 | the publish handler wired without a publisher broadcasts nothing |
| SqliteCqrs.SqliteContainer.constructor | src/infrastructure/sqlite-cqrs.ts:55-80 | command handlers over the Bun command repository on the command database, query handlers over the query repository on the query database |
| EventManagementService.FormOf | src/event-management.service.ts:37-49 | a missing or falsy `isOnline`, `eventType`, `ticketType` or `currency` becomes false, `PUBLIC`, `FREE` or 'PLN'; the rest is passed as given |
| EventManagementService.ServiceDefaultsMatchCommands | src/event-management.service.ts:44-48 | the service's defaults equal the command constructors', except that only the service replaces an empty currency |
| EventManagementService.Raised | src/event-management.service.ts:54-61 | a failed result becomes a thrown error with that result's message |
| EventManagementService.DataOrEmpty | src/event-management.service.ts:121-130 | a failed query falls back to `[]` |
| EventManagementService.CreatedEventListed | src/event-management.service.ts:37-61 | a created event appears in its organizer's list, unpublished and with the form's details |
| EventManagementService.PublishedEventCatalogued | src/event-management.service.ts:102-114 | a published event appears in the public catalogue |
| EventManagementService.EventManagementService.constructor | src/event-management.service.ts:18 | the service uses the given container |
| EventManagementService.EventManagementService.CreateEvent | src/event-management.service.ts:21-62 | returns the new id or throws the handler's error, and leaves the repository as the create handler does |
| EventManagementService.EventManagementService.UpdateEvent | src/event-management.service.ts:64-100 | completes or throws the handler's error, and leaves the repository as the update handler does |
| EventManagementService.EventManagementService.PublishEvent | src/event-management.service.ts:102-115 | completes or throws the handler's error ('Event not found' included), and leaves the repository as the publish handler does |
| EventManagementService.EventManagementService.GetOrganizerEvents | src/event-management.service.ts:115-131 | that organizer's events, each once, as DTOs; on the in-memory repository the `[]` fallback never applies |
| EventManagementService.EventManagementService.GetPublishedEvents | src/event-management.service.ts:132-149 | the published events, each once, as DTOs; the fallback never applies |

## Left out

- Console logging, HTTP routing, static files and all browser code are not part of this model.
- `getEventCount` is a method of `InMemoryEventRepository`, called at `src/api/rest-api.ts:193` and `src/main.ts:90`. Its definition is not in the source, so it is not modelled.
- `src/infrastructure/cqrs.ts:11` imports `InMemoryEventRepository` from `src/infrastructure/repositories.ts`, but that file defines no such class. The repository is modelled against the interface in `src/domain/repositories.ts`: a map keyed by id that never fails.
- Schema creation, indexes, CHECK constraints, `PRAGMA journal_mode`, prepared-statement handles and `close()` are not modelled. Each table starts empty and its enum columns always hold valid values.
- Dates are integer timestamps, and `CURRENT_TIMESTAMP` is one `stamp` per operation. Rows written in the same operation tie in `created_at`, and a tie may be listed in either order.
- An Invalid Date is not modelled. `new Date(s)` on a malformed string gives a NaN date, for example in `src/api/rest-api.ts:128-129`. Every comparison with NaN is false, so such a date passes both date rules of `src/domain/event.ts:106-112`. Every SQLite save then throws a RangeError from `toISOString` inside `eventToRow` (`src/infrastructure/repositories.ts:103-104`, `src/infrastructure/bun-sqlite-repositories.ts:96-97`, `src/infrastructure/sqlite-repositories.ts:96-97`) before any statement runs, and both tables stay unchanged. The model's integer dates cannot express this path.
- The date columns hold `toISOString` text, and `ORDER BY start_date` compares that text. Text order agrees with the model's integer order only for four-digit years (0000 to 9999). An expanded `+YYYYYY` year, such as 10000, sorts before 2030 as text but after it in the model, so `Precedes(StartAsc, …)` matches the source only within that range.
- Ticket amounts are `real`. JavaScript's floating-point rounding is not modelled.
- `Promise.all` concurrency is not modelled. Handlers run in subscription order, and `publishAll` publishes its events one after another.
- Throwing a value that is not an `Error` ('Unknown error occurred') is not modelled. Every failure in the modelled code is an `Error` with a message.
- The `Container` and `SQLiteContainer` getters and `SQLiteContainer.close` are plain field reads or I/O. The model exposes the fields directly.
- `src/infrastructure/sqlite-cqrs.ts` declares its own copies of the two buses. They are identical to those of `src/infrastructure/cqrs.ts` and are modelled once, as `Cqrs.CommandBus` and `Cqrs.QueryBus`.
- The projection handlers and the SQLite `save` methods open the hard-coded file `events_query.db`. The model passes that file in as the query `Table` of the repository or publisher.
- EventPublisher.Handler: a handler that is not one of the repository's three projections is modelled as an effect-free stub that either completes or fails. The source's only subscriber is `setupEventHandlers`, which subscribes the projections. The effects of an arbitrary `(event) => Promise<void>` handler are not modelled.
- Cqrs.CommandBus.Execute: requires the handler under a tag to serve that tag's command class, and to satisfy `Valid`. Untyped registration could store a mismatched handler, and its behaviour is not modelled.
- Cqrs.QueryBus.Execute: requires the handler under a tag to serve that tag's query class, for the same reason.
- CommandHandlers.HandlePublish: requires `Valid`. An injected publisher is either the repository's own or shares no table with it. Two publishers that alias each other's tables some other way are not modelled.
- EventCommandStore.EventCommandRepository.Save: requires the write and query databases to be different files. A repository whose write path is `events_query.db` is not modelled.
- BunSqliteStore.BunSqliteEventCommandRepository.Save: requires the write and query databases to be different files, for the same reason.
- SqliteStore.SqliteEventCommandRepository.Save: requires the write and query databases to be different files, for the same reason.
- SqliteCqrs.SqliteContainer.constructor: requires the command and query databases to be different files, which `events_command.db` and `events_query.db` are.
- EventCommandStore.EventCommandRepository.constructor: an injected publisher must already target the query database that the projection handlers write.
- QueryHandlers.MapToDto: its contract states only the ticket price's presence. The one-to-one copy of every field is stated by `MapToDtoInjective` and `ReadModelAgrees`.
- EventManagementService.DataOrEmpty: states only the failure fallback. The success case is stated by `GetOrganizerEvents`/`GetPublishedEvents`.
- A database either fails every statement or none. A database that fails between two statements of one save is not modelled. A failing read database is swallowed by the publisher in the publishing repository, and by the sync step's own `catch` in the Bun and SQLite repositories.
