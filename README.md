# Twitch and Lamoda parser pipeline: a verified Dafny model

The parser takes "parse this entity" requests and fetches the entity from Twitch or Lamoda. It stores the entity in MongoDB and emits an event describing the change. This project models the sequential logic of that pipeline, with the broker, the database and the HTTP API replaced by in-memory stand-ins:

- **Game store** (`TwichGameMongoRepository`, module `GameRepository`): a class whose field `games` is the Mongo collection, a sequence in natural order. `save()` follows MongoEngine:
  - a document that carries an id replaces the stored document with that id, or is inserted under that id;
  - a document without an id is inserted under a fresh id, drawn from a counter.

  `delete_game_by_name` loops over the documents the name query found and deletes each one by id. `create_or_update` builds its event and its entity from the one saved document.
- **User dispatcher** (`TwichUserKafkaDispatcher.run`, module `UserDispatcher`): a loop over consumed values. Each value is routed by its class name to at most one call on the user service, and each call is appended to a log.
- **Twitch user fetch** (`TwichUserDomainService.parse_user`, module `UserDomainService`): once the HTTP answer is an input, this is a pure decision:
  - 400 gives bad request;
  - 401 gives unauthorized;
  - a missing or empty `data` gives not found;
  - otherwise the entity is built from `data[0]`.
- **Orchestration services** (`TwichUserKafkaService` in module `UserService`, `LamodaProductsKafkaService` in module `ProductsService`). They use repositories whose code is not part of this model. Each such repository is a "port" class:
  - it records, in order, every call that writes to it or asks it for an event;
  - each answer it gives (`create_or_update`'s result, `all`, `get_*`) is a fixed, otherwise unknown function of the calls made before.

The mappers `TwichGameMapper`, `TwichUserMapper` and `LamodaProductMapper` are not shown in the source. They are constant function-valued fields fixed by each constructor, so nothing is assumed about them. Lamoda products, their schema and their events are type parameters.

In three places the code does less than a reader of its names might expect. This model follows the code in each:
- `create_or_update` does not upsert on the game name. It calls `save()` on the mapped document and looks nothing up by name, so the only upsert is MongoEngine's, by document id.
- `run` has no route for a parse request, and it catches no exception raised by the service it calls.
- The services never call their `publisher`: nothing is published.

## Model

| member | source | states |
|---|---|---|
| `Common.MapSeq` | tlparser/src/application/services/twich/kafka/user_service.py:101 | a list comprehension gives one image per element, in the same order |
| `GameRepository.TwichGameMongoRepository.ParseGame` | tlparser/src/infrastructure/repositories/twich/mongo/game_repository.py:39-50 | the event has type `twich_game` and the given name; it reads no store state, so the store is unchanged |
| `GameRepository.TwichGameMongoRepository.CreateOrUpdate` | tlparser/src/infrastructure/repositories/twich/mongo/game_repository.py:52-80 | the new store is `save()` of the mapped document; the saved document is stored, and the only other documents are the old ones with other ids; the event's id, name, igdb_id, box_art_url and parsed_at are the saved document's; `result` is `to_domain` of that same saved document; ids stay unique |
| `GameRepository.Save` | tlparser/src/infrastructure/repositories/twich/mongo/game_repository.py:65-66 | `save()` gives the document an id (its own if it had one, else the fresh one) and keeps its other fields; the saved document is stored; under an id already stored it takes that document's place, the store keeps its size and every document with another id keeps its position; under a new id it is appended at the end; with unique ids, the new store holds exactly the saved document and the old documents with other ids |
| `GameRepository.SaveKeepsStoreValid` | tlparser/src/infrastructure/repositories/twich/mongo/game_repository.py:65-66 | `save()` keeps ids unique and every stored document saved with an id |
| `GameRepository.SavedNameIsFound` | tlparser/src/infrastructure/repositories/twich/mongo/game_repository.py:65-66 | after a save, a name lookup for the saved document's name finds a document |
| `GameRepository.CreatedOrUpdatedEvent` | tlparser/src/infrastructure/repositories/twich/mongo/game_repository.py:68-74 | the event carries the saved document's id, name, igdb_id, box_art_url and parsed_at, so the saved document can be rebuilt from it |
| `GameRepository.TwichGameMongoRepository.All` | tlparser/src/infrastructure/repositories/twich/mongo/game_repository.py:90-92 | one entity per stored document, `to_domain` of it, in store order; reads only |
| `GameRepository.TwichGameMongoRepository.DeleteGameByName` | tlparser/src/infrastructure/repositories/twich/mongo/game_repository.py:94-108 | deleting, one by one, every document the name query found leaves exactly the documents with other names, in their order; always returns `TwichGameDeletedByNameEvent(name)`, even when nothing matched |
| `GameRepository.WithName` | tlparser/src/infrastructure/repositories/twich/mongo/game_repository.py:105 | the name query returns exactly the stored documents with that name |
| `GameRepository.DeleteRemovesOnlyName` | tlparser/src/infrastructure/repositories/twich/mongo/game_repository.py:105-106 | after the delete no document has the name, and every document with another name remains |
| `GameRepository.DeleteWithoutMatchKeepsStore` | tlparser/src/infrastructure/repositories/twich/mongo/game_repository.py:105-108 | when no document has the name, the delete leaves the store exactly as it was |
| `GameRepository.DeleteIsIdempotent` | tlparser/src/infrastructure/repositories/twich/mongo/game_repository.py:105-108 | a second delete of the same name leaves the store unchanged |
| `GameRepository.DeletingMatchedIdsIsDeletingName` | tlparser/src/infrastructure/repositories/twich/mongo/game_repository.py:105-106 | with unique ids, deleting every id that the name query found is the same as removing the name |
| `GameRepository.DeleteOneMore` | tlparser/src/infrastructure/repositories/twich/mongo/game_repository.py:106 | deleting one more document by id extends the set of deleted ids |
| `GameRepository.DeletedNameIsNotFound` | tlparser/src/infrastructure/repositories/twich/mongo/game_repository.py:105-106 | after deleting a name, a lookup of that name finds nothing |
| `GameRepository.FirstWhere` | tlparser/src/infrastructure/repositories/twich/mongo/game_repository.py:121 | `.first()`: the index found is the first that matches; none is found exactly when nothing matches |
| `GameRepository.TwichGameMongoRepository.GetGameByName` | tlparser/src/infrastructure/repositories/twich/mongo/game_repository.py:110-126 | `GameNotFoundException` exactly when no document has the name; otherwise `to_domain` of the first document with the name |
| `UserDomainService.EntityFrom` | tlparser/src/domain/services/twich/user_service.py:67-68 | the entity keeps every field of `data[0]` except `created_at`, which is the parsed value, and sets `parsed_at` to the fetch time |
| `UserDomainService.ParseUser` | tlparser/src/domain/services/twich/user_service.py:56-70 | 400 gives exactly bad request and 401 exactly unauthorized; any other status with missing or empty `data` gives exactly not found; an unparsable `created_at` gives exactly the `ValueError`; success happens only when `data` is non-empty, and the entity is then built from `data[0]` |
| `UserDomainService.OtherStatusFallsThrough` | tlparser/src/domain/services/twich/user_service.py:56-62 | any other status, 500 included, is read exactly as a 200 would be |
| `UserDomainService.StatusErrorsIgnoreBody` | tlparser/src/domain/services/twich/user_service.py:56-60 | a 400 or 401 fails whatever the body holds: the status checks come before `data` is read or an entity is built |
| `UserDomainService.OnlyFirstUserIsRead` | tlparser/src/domain/services/twich/user_service.py:67-68 | users after `data[0]` do not affect the result |
| `UserDomainService.MissingDataIsEmptyData` | tlparser/src/domain/services/twich/user_service.py:62-65 | a missing `data` member and an empty list give the same answer |
| `UserDispatcher.ClassName` | tlparser/src/presentation/dispatchers/twich/kafka/user_dispatcher.py:59 | the class name is `TwichUserCreatedOrUpdatedEvent` exactly for a created/updated event and `TwichUserDeletedByLoginEvent` exactly for a deleted event |
| `UserDispatcher.Route` | tlparser/src/presentation/dispatchers/twich/kafka/user_dispatcher.py:59-77 | at most one call per value; a created/updated event gives exactly one `create`, whose schema's ten fields equal the event's; a deleted event gives exactly `delete_user_by_login` with the event's login; any other class gives no call |
| `UserDispatcher.RoutingDependsOnClassOnly` | tlparser/src/presentation/dispatchers/twich/kafka/user_dispatcher.py:59 | two values with the same class name cause calls to the same service methods, whatever their fields |
| `UserDispatcher.Dispatched` | tlparser/src/presentation/dispatchers/twich/kafka/user_dispatcher.py:58-77 | the calls of a stream, handled one value at a time in consumer order; a stream whose values are all of other classes causes no call |
| `UserDispatcher.DispatchedAppend` | tlparser/src/presentation/dispatchers/twich/kafka/user_dispatcher.py:58-77 | the call log of a concatenated stream is the concatenation of the logs, in consumer order |
| `UserDispatcher.DispatchedSnoc` | tlparser/src/presentation/dispatchers/twich/kafka/user_dispatcher.py:58 | one more consumed value appends exactly its own calls |
| `UserDispatcher.DispatchedPrefixStep` | tlparser/src/presentation/dispatchers/twich/kafka/user_dispatcher.py:58 | handling the next consumed value after a prefix appends exactly that value's calls |
| `UserDispatcher.DispatchedBound` | tlparser/src/presentation/dispatchers/twich/kafka/user_dispatcher.py:58-77 | a stream never causes more calls than it has values |
| `UserDispatcher.DispatchedCallsComeFromValues` | tlparser/src/presentation/dispatchers/twich/kafka/user_dispatcher.py:58-77 | every call in the log was caused by one consumed value whose routing is exactly that call |
| `UserDispatcher.ForeignValueIsIgnored` | tlparser/src/presentation/dispatchers/twich/kafka/user_dispatcher.py:76-77 | a value of any other class is a no-op wherever it stands in the stream |
| `UserDispatcher.TwichUserKafkaDispatcher.Run` | tlparser/src/presentation/dispatchers/twich/kafka/user_dispatcher.py:53-77 | the loop appends to the log exactly the in-order concatenation of each value's routed calls |
| `UserService.TwichUserRepositoryPort.ParseUser` | tlparser/src/application/services/twich/kafka/user_service.py:48 | the repository records a `parse_user` request for the login |
| `UserService.TwichUserRepositoryPort.CreateOrUpdate` | tlparser/src/application/services/twich/kafka/user_service.py:65-67 | the repository records one `create_or_update` of the entity; it answers with its reply to that call after its history |
| `UserService.TwichUserRepositoryPort.DeleteUserByLogin` | tlparser/src/application/services/twich/kafka/user_service.py:89 | the repository records one delete of the login |
| `UserService.TwichUserKafkaService.ParseUser` | tlparser/src/application/services/twich/kafka/user_service.py:40-50 | the only effect is one `repository.parse_user(login)`: no fetch, no write, no publisher |
| `UserService.TwichUserKafkaService.PrivateParseUser` | tlparser/src/application/services/twich/kafka/user_service.py:52-69 | when the fetch fails, its error is returned unchanged and the repository gets no call; otherwise exactly one `create_or_update` with the fetched entity, and the result is `to_schema` of the repository's `result` |
| `UserService.TwichUserKafkaService.Create` | tlparser/src/application/services/twich/kafka/user_service.py:71-79 | exactly one `create_or_update(to_domain(schema))` |
| `UserService.TwichUserKafkaService.DeleteUserByLogin` | tlparser/src/application/services/twich/kafka/user_service.py:81-91 | exactly one delete, with the same login |
| `UserService.TwichUserKafkaService.GetAllUsers` | tlparser/src/application/services/twich/kafka/user_service.py:93-101 | one schema per repository entity, `to_schema` of it, in the same order |
| `UserService.TwichUserKafkaService.GetUserByLogin` | tlparser/src/application/services/twich/kafka/user_service.py:103-116 | the repository's entity mapped by `to_schema`; the repository's not-found error propagates unchanged |
| `ProductsService.CreateCalls` | tlparser/src/application/services/lamoda/kafka/products_service.py:69-72 | one `create_or_update` call per product, the i-th with the i-th product |
| `ProductsService.LamodaProductsRepositoryPort.ParseProducts` | tlparser/src/application/services/lamoda/kafka/products_service.py:48 | the repository records a `parse_products` request for the category |
| `ProductsService.LamodaProductsRepositoryPort.CreateOrUpdate` | tlparser/src/application/services/lamoda/kafka/products_service.py:70-72 | the repository records one `create_or_update` of the product; it answers with its reply to that call after its history |
| `ProductsService.LamodaProductsRepositoryPort.DeleteProductsByCategory` | tlparser/src/application/services/lamoda/kafka/products_service.py:98 | the repository records one delete of the category |
| `ProductsService.LamodaProductsKafkaService.ParseProducts` | tlparser/src/application/services/lamoda/kafka/products_service.py:40-50 | the only effect is one `repository.parse_products(category)`: no fetch, no write |
| `ProductsService.LamodaProductsKafkaService.PrivateParseProducts` | tlparser/src/application/services/lamoda/kafka/products_service.py:52-76 | a fetch error propagates with no repository call; otherwise exactly one `create_or_update` per fetched product, in fetched order; the result has one element per product, and the i-th is `to_schema` of the result of the i-th call, answered after the earlier calls; an empty fetch writes nothing and returns `[]` |
| `ProductsService.LamodaProductsKafkaService.Create` | tlparser/src/application/services/lamoda/kafka/products_service.py:78-88 | exactly one `create_or_update(to_domain(schema))` |
| `ProductsService.LamodaProductsKafkaService.DeleteProductsByCategory` | tlparser/src/application/services/lamoda/kafka/products_service.py:90-100 | exactly one delete, with the same category |
| `ProductsService.LamodaProductsKafkaService.GetAllProducts` | tlparser/src/application/services/lamoda/kafka/products_service.py:102-113 | one schema per repository product, in the same order |
| `ProductsService.LamodaProductsKafkaService.GetProductsByCategory` | tlparser/src/application/services/lamoda/kafka/products_service.py:115-129 | one schema per product the repository finds for the category, in the same order |

## Left out

- Kafka consumer construction, subscription, pickle deserialization and the daemon thread running `asyncio.run` (user_dispatcher.py:23-51). This is broker and thread plumbing. `run` takes the consumed values as a sequence.
- Exceptions raised by the user service during `run`. The dispatcher model records calls, and a recorded call cannot fail. In the code, an exception from `create` or `delete_user_by_login` would leave `run` and end the consumer thread, because there is no `try`.
- `ConsumedValue.Foreign`: a value of some other class whose name equals `TwichUserCreatedOrUpdatedEvent` or `TwichUserDeletedByLoginEvent` is excluded by the type `ForeignClassName`. Such a value would be routed by the code, and its attributes read.
- The HTTP request: `requests.get`, the settings URL and the token headers (domain user_service.py:24-54). This is network I/O. The answer is the input `TwitchResponse`.
- A body that is not JSON, a `data` member that is not a list, and keys of `data[0]` that `TwichUserEntity` rejects or misses. The model reads only the status code and an optional list of user records.
- `datetime.strptime` and the clock. They are the parameters `parseCreatedAt` (where `None` is the `ValueError`) and `parsedAt`.
- Mongo internals. ObjectId generation is a counter (`nextId`). Query and index mechanics are not modelled, and `.first()` returns the first document in natural order.
- Concurrent writers and the cross-process race on `save()`. Every coroutine is one sequential step.
- The user repository, the products repository, the Lamoda domain service, the publisher and the mappers. Their code is not part of this model: the repositories are port classes, the Lamoda fetch is the input `fetched`, and the mappers are function-valued fields. The publisher is never called.
- Failures of the port repositories. A recorded call cannot fail. In the code, a `create_or_update` that raises partway through `private_parse_products` (products_service.py:69-72) leaves the earlier writes in place and propagates the exception. The same raise in `private_parse_user` (user_service.py:65-67) propagates and no schema is returned.
- Reads of the port repositories (`all`, `get_user_by_login`, `get_products_by_category`). They are not recorded in the call log; their answers depend only on the recorded calls.
- tlparser/src/application/interfaces/services/twich/user_service.py declares methods without behaviour. It is represented only by the two dispatcher call kinds `Create` and `DeleteUserByLogin`.
- tlparser/src/config/metadata.py holds only text constants.
