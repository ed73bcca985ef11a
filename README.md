# hashbang request-to-storage pipeline, modelled in Dafny

This project models the `v1` package of the hashbang service, a small Go HTTP service that
stores "named tag lists" (an id, a name and ordered tags, filed under a bucket) in PostgreSQL
and keeps an older in-memory "post" resource. It covers:

- **Migration runner** (`migrations.dfy`, module `MigrationRunner`). The runner ensures that the
  `metadata` table and its `schemaVersion` row exist, reads the counter back, runs the pending
  migrations in order and writes the migration count. The database is a `DbState`: whether the
  metadata table exists, the metadata rows, and the log of statements sent. A `Connection`
  class holds that state. It also holds two oracles: one decides which statements the server
  rejects, the other whether the counter scan fails. `MigrateConnection` follows the Go code
  step by step and is proved equal to the function `Migrate`, which the lemmas are about.
- **Named-tag-list repository** (`named_tag_list_repository.dfy`, module `NamedTagListStore`).
  The `named_tag_lists` table is a sequence of `Row`s held by the `NamedTagListRepository`
  class. Each method is the one SQL statement the source sends. `= ANY($n)` is list membership,
  and each write takes a failure oracle. `FindAll` keeps the source's `rows.Next()` loop. Its
  fault oracle covers a failed query, a failed scan and a row stream that ends early.
- **Named-tag-list service** (`named_tag_list_service.dfy`): the `Create` stub and `CreateOld`.
  The generated UUID and the repository's error are parameters.
- **Handlers** (`named_tag_list_controller.dfy`, `post_controller.dfy`). Each handler is a
  method over a `ResponseWriter` (`http.dfy`) and the outcome of the call it makes. As in
  net/http, only the first `WriteHeader` counts, and a `Write` with no header sent sends 200.
- **Router** (`router.dfy`): dispatch on (method, path) through the patterns registered on a
  fresh mux for each request.
- **In-memory post repository** (`post_repository.dfy`): a class whose `posts` field
  `Create` appends to and `DeleteAll` empties.

The source files do not type-check against each other (a refactor is half done), and each one
is modelled as written:

- The controller calls `FindAll()` and `DeleteAll()` with no buckets, so the GET handler
  ignores the query and `DeleteAllCall` carries no buckets.
- The controller calls the service's one-argument `Create`, which is `CreateOld`'s shape.
  `CreateThroughService` composes the two on that basis.
- `CreateOld` calls the repository's `Create` with no bucket. The service therefore models
  the call as the record passed, and the repository's answer as a parameter.

Behaviour of the code as written, which the model follows:

- The handlers validate no bucket and write no 400 error body for a missing bucket or for
  several buckets, although `v1/named_tag_list_controller_test.go:186-214` and `:316-384`
  expect both.
- There is no PUT handler, so PUT is routed to 404, although
  `v1/named_tag_list_controller_test.go:386-482` exercises one.
- `FindAll`'s query has no `order by`; the model's table lists rows in insertion order.
- On a GET error the handler still writes the JSON of the returned list: `null` from the
  concrete repository.
- A successful run that sends the pending migrations leaves the counter at the number of
  migrations. A counter read back at or above that number is left as it was
  (`UpToDateSendsNothing`).
- A failed counter scan is ignored, and the runner then starts again from migration 0.

Consequences of that behaviour, proved here:

- A counter that cannot be scanned makes the runner send the migrations again from the first,
  in order, up to and including the first one that fails (`ScanFailureRerunsFromFirst`). If
  every migration sent and the counter update succeed, a stored counter above the migration
  count is lowered to it (`ScanFailureLowersCounter`).
- A negative stored counter makes the slice expression panic (`NegativeCounterPanics`).
- A row stream that ends early is returned truncated with no error, because `rows.Err()` is
  never checked (`NamedTagListStore.NamedTagListRepository.FindAll`).
- A POST body that is the JSON literal `null` dereferences a nil pointer and panics
  (`NamedTagListController.CreateNamedTagList`).

## Model

| member | source | states |
|---|---|---|
| `MigrationRunner.Effect` | v1/migrations.go:13-44 | what each accepted statement does: creating the table sets it present, the insert adds the counter at 0 only when absent and keeps every other row, the update overwrites an existing counter only, a migration touches no metadata; the log is not touched |
| `MigrationRunner.ExecStep` | v1/migrations.go:13-21 | a statement is always logged as sent, the error is the server's verdict, and the statement takes effect only when the server accepts it |
| `MigrationRunner.RunMigrations` | v1/migrations.go:36-42 | the loop only appends to the statement log, and an error it reports names a loop index within the pending slice |
| `MigrationRunner.Migrate` | v1/migrations.go:11-50 | a run only appends to the statement log and always sends the metadata-table creation first; a failing migration is reported with an index below the number of migrations |
| `MigrationRunner.InitialisationSteps` | v1/migrations.go:13-21 | after the create succeeds the metadata table exists; after the insert also succeeds the counter exists, at 0 only if it was absent, with both statements logged |
| `MigrationRunner.ReadVersion` | v1/migrations.go:23-25 | a failed scan leaves the counter variable at Go's zero value 0 and the error is dropped; a successful scan yields the stored value |
| `MigrationRunner.FirstFailure` | v1/migrations.go:36-42 | the index of the first pending migration the server rejects: all earlier ones succeed, it fails, or none fails and it is the length |
| `MigrationRunner.RunMigrationsKeepsMetadata` | v1/migrations.go:36-42 | the migration loop changes no metadata row and does not drop the metadata table |
| `MigrationRunner.RunMigrationsSendsInOrder` | v1/migrations.go:36-42 | the loop sends the pending migrations in ascending order, up to and including the first failing one, and none after it |
| `MigrationRunner.RunMigrationsReportsFirstFailure` | v1/migrations.go:36-41 | the loop reports the first failing migration with its loop index and cause, and no error when none fails |
| `MigrationRunner.InitialisationKeepsExistingVersion` | v1/migrations.go:12-47 | if creating the metadata table or inserting the counter fails, Migrate stops with that error; otherwise the run ends with the metadata table and the counter present, the counter holding its earlier value (0 if it was absent) or, only on success, the number of migrations |
| `MigrationRunner.UpToDateSendsNothing` | v1/migrations.go:32-34 | a counter read back at or above the number of migrations means success with only the two initialisation statements sent and the counter not written |
| `MigrationRunner.PendingMigrationsRunInOrder` | v1/migrations.go:36-47 | from counter v, exactly migrations[v..] are sent in order until the first failure; a failure is reported with its index counted from v and leaves the counter as it was; with no failure the counter is set to the number of migrations iff that update succeeds |
| `MigrationRunner.CounterNeverDecreases` | v1/migrations.go:32-47 | when the counter is read correctly it is never lowered |
| `MigrationRunner.SecondRunIsNoOp` | v1/migrations.go:11-49 | after a successful Migrate, a second one (counter read correctly, initialisation succeeding) sends no migration, changes no metadata and succeeds |
| `MigrationRunner.ScanFailureRerunsFromFirst` | v1/migrations.go:23-38 | when the counter scan fails, whatever the stored counter says, the log after the two initialisation statements starts with the migrations from the first, in order, up to and including the first failing one |
| `MigrationRunner.ScanFailureLowersCounter` | v1/migrations.go:23-44 | with a failed scan and a stored counter above the number of migrations, a run in which every statement succeeds ends with the counter lowered to the number of migrations |
| `MigrationRunner.NegativeCounterPanics` | v1/migrations.go:32-36 | a negative counter read back passes the up-to-date test and makes the slice expression panic right after initialisation |
| `MigrationRunner.Connection.Exec` | v1/migrations.go:13-21 | a statement is always logged as sent; it takes effect only if the server accepts it |
| `MigrationRunner.Connection.QueryVersion` | v1/migrations.go:23-25 | the counter read, with the scan error lost |
| `MigrationRunner.MigrateConnection` | v1/migrations.go:11-50 | the step-by-step runner over the connection ends in the state and outcome of `Migrate` on the constant migration list |
| `NamedTagListStore.Filter` | v1/named_tag_list_repository.go:29-81 | a `where` clause selects never more rows than the table has; which rows, and how often, is stated by `FilterKeepsExactly` |
| `NamedTagListStore.Selected` | v1/named_tag_list_repository.go:29-43 | FindAll returns at most one record per table row |
| `NamedTagListStore.FilterKeepsExactly` | v1/named_tag_list_repository.go:29-31 | a `where column = ANY($n)` clause keeps every row it holds for, as often as the table holds it, and no other row |
| `NamedTagListStore.Replaced` | v1/named_tag_list_repository.go:58-67 | every row whose id is listed gets the new name and tags; no row's id or bucket changes; unlisted rows stay as they were |
| `NamedTagListStore.FindAllWithoutBucketsIsEmpty` | v1/named_tag_list_repository.go:29 | an empty bucket list selects no row, never all rows |
| `NamedTagListStore.FindAllReturnsListedBuckets` | v1/named_tag_list_repository.go:29-43 | FindAll returns the (id, name, tags) of a row if and only if that row's bucket is listed |
| `NamedTagListStore.CreateThenFindAll` | v1/named_tag_list_repository.go:46-56 | after Create in a bucket, listing that bucket gives the earlier list followed by the record with id, name and tags as given; into an empty bucket, only the record |
| `NamedTagListStore.ReplaceWithoutMatchChangesNothing` | v1/named_tag_list_repository.go:61 | replacing ids no row has leaves the table unchanged |
| `NamedTagListStore.NamedTagListRepository.constructor` | v1/named_tag_list_repository.go:88-92 | the repository works on the table as it stands |
| `NamedTagListStore.NamedTagListRepository.FindAll` | v1/named_tag_list_repository.go:23-44 | without faults it returns exactly the selected records; a failed query, or a failed scan of a row that exists, gives no list and the error; a stream ending early gives the prefix read and no error; the table is not modified |
| `NamedTagListStore.NamedTagListRepository.Create` | v1/named_tag_list_repository.go:46-56 | on success exactly one row (id, name, tags, bucket) is added and the other rows are unchanged; on failure nothing changes and the error is returned |
| `NamedTagListStore.NamedTagListRepository.ReplaceByIds` | v1/named_tag_list_repository.go:58-67 | on success the table becomes `Replaced` with the record's name and tags; the record's id is not used |
| `NamedTagListStore.NamedTagListRepository.DeleteAll` | v1/named_tag_list_repository.go:69-76 | on success exactly the rows whose bucket is listed are removed; rows of other buckets remain |
| `NamedTagListStore.NamedTagListRepository.DeleteByIds` | v1/named_tag_list_repository.go:78-85 | on success exactly the rows whose id is listed are removed; all other rows remain |
| `NamedTagListStore.BucketIsolationScenario` | v1/named_tag_list_repository.go:23-76 | records created in buckets "red" and "blue": listing "blue" returns only the blue record, and deleting "red" leaves only the blue row |
| `NamedTagListService.Create` | v1/named_tag_list_service.go:14-16 | the stub returns no record and no error and calls neither the generator nor the repository |
| `NamedTagListService.CreateOld` | v1/named_tag_list_service.go:18-21 | the result is the input with its id replaced by the generated one, name and tags unchanged; that same record is passed once to the repository; the generator is called once; the repository error is returned unchanged beside the record |
| `NamedTagListService.CreateOldIgnoresSuppliedId` | v1/named_tag_list_service.go:19 | a caller-supplied id has no effect on the outcome |
| `NamedTagListController.DeleteCallFor` | v1/named_tag_list_controller.go:63-68 | DeleteByIds is chosen, with exactly the query's ids, if and only if the query has at least one `id`; otherwise DeleteAll |
| `NamedTagListController.GetNamedTagLists` | v1/named_tag_list_controller.go:20-37 | a repository error gives 500, success the default 200; the body is the JSON of exactly the list the repository returned |
| `NamedTagListController.CreateNamedTagList` | v1/named_tag_list_controller.go:39-57 | a malformed body gives 400 and no service call; a `null` body panics before the call; otherwise the decoded record goes to the service once, and its error gives 500 with no body, its success 201 with the returned record encoded |
| `NamedTagListController.DeleteNamedTagLists` | v1/named_tag_list_controller.go:59-76 | the repository call is the one `DeleteCallFor` selects; its error gives 500, its success 204; no body |
| `NamedTagListController.CreateThroughService` | v1/named_tag_list_controller.go:47-53 | a decoded POST served through `CreateOld` answers 201 with the record carrying the generated id, or 500 with no body when the repository fails |
| `Router.Registrations` | v1/router.go:25-34 | the fresh mux holds only /namedTagLists and /version; /version is registered exactly for GET, /namedTagLists exactly for GET, POST and DELETE |
| `Router.Route` | v1/router.go:24-35 | GET, POST and DELETE on /namedTagLists reach the list, create and delete handlers; GET /version reaches the version handler; every other (method, path) pair, PUT included, is not found; the choice depends on (method, path) alone |
| `Router.ServeHTTP` | v1/router.go:24-36 | the handler chosen is `Route`'s; when nothing matches the answer is 404 with body "404 page not found\n", otherwise nothing is written before the handler runs |
| `PostStore.PostRepository.constructor` | v1/post_repository.go:27-31 | a new repository holds no posts |
| `PostStore.PostRepository.FindAll` | v1/post_repository.go:14-16 | returns the posts held, changing nothing |
| `PostStore.PostRepository.Create` | v1/post_repository.go:18-20 | appends the post at the end; earlier posts and their order are kept |
| `PostStore.PostRepository.DeleteAll` | v1/post_repository.go:22-24 | leaves the repository empty whatever it held, so a second call is the same as one |
| `PostStore.PostLifecycle` | acceptance_test.go:144-187 | posts created and then listed come back as given, tags included, in creation order; after deleting all the list is empty |
| `PostController.GetPosts` | v1/post_controller.go:26-38 | writes the JSON of exactly what FindAll returns, with the default status 200 |
| `PostController.CreatePost` | v1/post_controller.go:40-52 | a body that fails to decode panics with the repository and response untouched; otherwise the post is created once and the answer is 201 with no body |
| `PostController.DeletePost` | v1/post_controller.go:54-61 | always deletes every post and answers 204 with no body, whatever the query holds |

## Left out

- main.go is not part of this model. It covers process wiring, the environment variable, the
  goroutine and WaitGroup, and `ListenAndServe`.
- The UUID generator (v1/uuid_generator.go) calls a foreign library. The model takes the value
  of its one `Generate()` call as a parameter.
- The logger (v1/logger.go) is an output sink. Neither the handlers shown nor the model call it.
- The migration `Printf` is log output only and is not modelled.
- The Kotlin sources are not modelled. They are application startup and plain data classes.
- JSON encoding and decoding are not modelled byte by byte. Decoding is an oracle: malformed,
  `null`, or a record. The model does not track Go's nil-versus-empty distinction for `tags`.
- The pgx driver, connection pooling and SQL execution are left out. Each statement is atomic
  and succeeds or fails by an oracle, and the table has no constraints beyond the columns.
- The `named_tag_lists` DDL is not modelled. The shown migrations do not create that table, so
  the model assumes no key constraint.
- ServeMux path cleaning, redirects for non-canonical paths, host patterns and CONNECT
  handling are left out. Only exact path matches are modelled.
- The version handler's response is not modelled. The router only selects it.
- Go `int` is modelled as an unbounded integer. The counter never comes near 64 bits.
- The migration error text from `fmt.Errorf` is modelled by its parts (index, cause), not by
  the formatted string.
- Concurrency, request deadlines and the connection pool are left out: every operation here
  is sequential.
- Behaviour asserted only by the tests is not modelled, because the code does not do it:
  bucket validation with 400 messages, logger calls, a PUT handler, a POST reply body for
  posts, and posts surviving a new repository.
- `NamedTagListStore.NamedTagListRepository.FindAll` returns rows in table order. The
  database promises no order, so any permutation would also be faithful to the source.
- `NamedTagListStore.FilterKeepsExactly` states multiplicities and membership only. It does
  not state that filtering keeps table order, although the model does keep it.
- `NamedTagListStore.CreateThenFindAll` states that the new record comes after the earlier
  ones. That order is the model's table order; the source's query has no `order by`, so the
  database promises only the same records in some order.
