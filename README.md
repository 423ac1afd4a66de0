# A verified model of the apywire-starlette example service

The service looks users up over a local SQLite file through a small web
application. Its components are wired by a container that the program's
`--compile` directive generates (a wiring compiler run over `config.yaml`):

- the connection;
- a user service and a migration service over that connection;
- a user handler and a home handler;
- a route for each handler;
- the Starlette application holding both routes.

The container is the class `Compiled`. Each of its accessors fills a private
slot on first use and returns that slot's component afterwards. The process
entry point chooses one of four directives from its command-line flags.

This project models that core in Dafny and proves what it promises:

- `Container` is the container, as a class with one `Option` slot per
  component and a ghost construction counter per slot. Its invariant `Valid`
  says that every filled slot was built on the components in its
  dependencies' slots, and that every filled slot was constructed exactly once.
  Each accessor keeps `Valid`. Each accessor returns the slot's component
  whenever the slot was already filled. Each accessor fills exactly the slots
  that `Fills` assigns to it, and a failed open of the database file leaves
  the container unchanged.
- `Services` is the storage handle and the two services. The connection is a
  class whose `users` table is an optional map from `screen_name` (the primary
  key) to `name`. It is `None` while the file holds no such table. `get_user`
  is a read-only function. A migration is a method that updates the shared
  connection in place. The function `Migrated` specifies its result.
- `Handlers` is the 200/404 decision of the user handler and the constant
  response of the home handler.
- `App` is the directive chosen from `argv`, `create_app`, and the `__main__`
  block over the container.

Opening the database file is the only outside input. It is the parameter
`Disk`: whether the file opens, and the `users` table it already holds.
Python's module-level singleton `compiled` is passed explicitly as a
`Compiled` object, because Dafny has no mutable module state.

Two behaviours of the code are worth stating directly:

- A storage error inside the user handler propagates. Nothing in the code
  turns it into a 500 response, so `UserHandler.Call` returns
  `Err(Storage(NoSuchTable))` when the table is missing.
- An empty screen name is an ordinary key. It is found only when a row has
  that key.

## Model

| member | source | states |
|---|---|---|
| `Services.Connection.constructor` | src/container.py:15 | a new connection to a file holds the `users` table stored in that file, if any |
| `Services.Open` | src/container.py:15 | opening succeeds exactly when the file can be opened; the connection is a new object named after the file and holding its table; a failed open names the file |
| `Services.Connection.CreateUsersTableIfNotExists` | src/services.py:29-33 | an absent table becomes empty; an existing table is kept with all its rows |
| `Services.Connection.ReplaceInto` | src/services.py:34-45 | the row for the key is inserted or replaced; every other row stays |
| `Services.Existing` | src/services.py:29-33 | the rows after create-if-absent are the old rows, or none when there was no table |
| `Services.UserService.constructor` | src/services.py:6-7 | the user service holds exactly the connection it is given |
| `Services.Migrated` | src/services.py:29-45 | after a migration each of `foo`, `bar`, `baz` maps to its seed name and every other key is present exactly when it was, with its old name; the keys are the old keys plus the three seed keys |
| `Services.UpsertsMigrate` | src/services.py:34-45 | the three `REPLACE INTO` statements, in their order, produce exactly `Migrated` of the table |
| `Services.MigrationService.constructor` | src/services.py:23-24 | the migration service holds exactly the connection it is given |
| `Services.MigrationService.Run` | src/services.py:26-46 | `run` always returns true, also on a database it has already migrated, and leaves the shared connection's table equal to `Migrated` of the old table |
| `Services.MigratedIdempotent` | src/services.py:29-46 | migrating a migrated table changes nothing |
| `Services.MigrateRepeatedly` | src/services.py:29-46 | any number of migrations, one or more, equals one migration |
| `Services.UserService.GetUser` | src/services.py:9-19 | lookup fails exactly when the table is missing; otherwise it returns a record exactly when a row has the key, and that record is the key with the stored name |
| `Services.SeedUsersFound` | src/services.py:34-45 | after a migration, looking up each seed key gives that seed user, whatever the table held before |
| `Services.OtherUsersUnchanged` | src/services.py:29-45 | after a migration, looking up any non-seed key gives what the old rows gave |
| `Handlers.Decide` | src/handlers.py:18-23 | status 200 exactly when a record was found, with body `{"user": record}`; status 404 exactly when none was found, with body `{"error": "User not found"}` |
| `Handlers.DecideDistinguishes` | src/handlers.py:18-23 | two lookup results with the same response are equal, so the response carries the found record in full |
| `Handlers.UserHandler.constructor` | src/handlers.py:11-12 | the user handler holds exactly the user service it is given |
| `Handlers.UserHandler.Call` | src/handlers.py:14-23 | a missing `screen_name` path parameter raises; a missing table propagates the storage error; otherwise the response is `Decide` of the lookup of exactly `path_params["screen_name"]`, found or 404 according to the stored rows |
| `Handlers.HomeHandler.Call` | src/handlers.py:27-28 | every request gets the default status and `{"message": "Hello World!"}` |
| `Handlers.SeedUserServed` | src/handlers.py:16-19 | after a migration, a request for a seed key is answered 200 with that seed user |
| `Container.FillsClosed` | src/container.py:18-51 | what an accessor fills includes its own slot, each direct dependency, and everything those fill |
| `Container.FillsOnlyDeps` | src/container.py:18-51 | every other slot an accessor fills is filled by one of its direct dependencies |
| `Container.MigrationsOnlyByItself` | src/container.py:23-26 | in the fill relation that every accessor's contract uses, only `migrations()` fills the migrations slot; so no other accessor can fill `_migrations` |
| `Container.Application.constructor` | src/container.py:50 | the application holds exactly the routes it is given, in the given order |
| `Container.MigrationsFills` | src/container.py:13-26 | `migrations()` on a new container succeeds exactly when the file opens; it then fills exactly `_db` and `_migrations`, and otherwise nothing |
| `Container.AppFills` | src/container.py:13-51 | `app()` on a new container succeeds exactly when the file opens; it then fills every slot except `_migrations`, and otherwise nothing |
| `Container.Compiled.constructor` | src/container.py:52 | a new container has every slot empty and satisfies the invariant |
| `Container.Compiled.Db` | src/container.py:13-16 | the first successful call opens `db.sqlite` with the file's table and fills `_db`; later calls return the same connection; exactly `_db` is filled; a failed open leaves the container unchanged |
| `Container.Compiled.Users` | src/container.py:18-21 | the service is built once on the container's connection and returned on every later call; exactly the slots `_users` and `_db` that were empty become filled; a connection opened here is `db.sqlite` holding the file's table; a failed open leaves the container unchanged |
| `Container.Compiled.Migrations` | src/container.py:23-26 | the service is built once on the container's connection and returned on every later call; exactly the slots `_migrations` and `_db` that were empty become filled; a connection opened here is `db.sqlite` holding the file's table; a failed open leaves the container unchanged |
| `Container.Compiled.UserHandler` | src/container.py:28-31 | the handler is built once on the container's user service and returned on every later call; exactly the empty slots among `_user_handler`, `_users` and `_db` become filled; a connection opened here is `db.sqlite` holding the file's table; a failed open leaves the container unchanged |
| `Container.Compiled.HomeHandler` | src/container.py:33-36 | the handler is built once, without dependencies, and returned on every later call; no other slot fills |
| `Container.Compiled.UserRoute` | src/container.py:38-41 | the route is `/users/{screen_name}`, methods `["GET"]`, to the container's user handler, built once; exactly the empty slots among the route, the user handler, `_users` and `_db` become filled; a connection opened here is `db.sqlite` holding the file's table; a failed open leaves the container unchanged |
| `Container.Compiled.HelloRoute` | src/container.py:43-46 | the route is `/` with no method restriction, to the container's home handler, built once; only the route and the home handler can fill |
| `Container.Compiled.App` | src/container.py:48-51 | the application is built once with routes exactly `[user_route(), hello_route()]`; the empty slots other than `_migrations` become filled and `_migrations` does not; a connection opened here is `db.sqlite` holding the file's table; a failed open leaves the container unchanged |
| `Container.BuiltAtMostOnce` | src/container.py:13-51 | every component is constructed at most once, and it has been constructed exactly when its slot is filled |
| `Container.AppWiring` | src/container.py:38-51 | the application's two routes, in order, are the user route to the user handler and the hello route to the home handler; the user handler's service holds the container's connection |
| `Container.OneConnection` | src/container.py:18-26 | the user service and the migration service hold the same connection object |
| `App.SelectDirective` | src/app.py:17-30 | `--compile` anywhere selects Compile; otherwise `--migrate` selects Migrate; otherwise `--run` selects Run; with none of them, Usage |
| `App.OnlyMembershipMatters` | src/app.py:17-25 | argument vectors that agree on which flags they contain select the same directive |
| `App.ReorderingIgnored` | src/app.py:17-25 | permuting the arguments does not change the directive |
| `App.UnrelatedArgumentIgnored` | src/app.py:17-25 | inserting a non-flag argument anywhere does not change the directive |
| `App.CompileWins` | src/app.py:17 | an argument vector containing `--compile` selects Compile whatever else it holds |
| `App.UsageHasFourLines` | src/app.py:27-30 | the usage text shown for the Usage directive has four lines, the first being `Usage:` |
| `App.CreateApp` | src/app.py:12-13 | `create_app` returns the container's application singleton, the same object on every call, and never fills `_migrations`; a connection it opens is `db.sqlite` holding the file's table; a failed call leaves the container unchanged |
| `App.Execute` | src/app.py:16-30 | each directive does its own action: migrate runs the migration on the container's connection and leaves the user service, handler, route and app slots as they were; run creates the application over `db.sqlite`, and a failed open leaves the container unchanged; compile and usage leave the container alone; only migrate writes to the connection's table |
| `App.MigrateThenRequest` | src/container.py:18-31 | after a migration through the container, the response is the container's own user handler answering the request, and it serves each seed user with 200; filled slots keep their components |

## Left out

- The SQLite engine (apsw), SQL text and cursors: the `users` table is a map from key to name. `NULL` names and column widths are not modelled.
- Services.Open: the reasons an open can fail are not modelled, only whether it fails. No other constructor fails, since none does any I/O.
- The migration's progress message and the printing of the usage text are console output. The usage lines are kept as data.
- The `--compile` action reads YAML, runs the wiring compiler and writes a file. All of this is file I/O and a foreign code generator. `App.Execute` only records that the directive was chosen.
- `uvicorn.run` and the server loop: serving is modelled as one call of `create_app`. Concurrent requests, and concurrent first access to the container, are not modelled.
- Starlette's path matching, method checks, `Request`, `JSONResponse` encoding and the ASGI `scope`/`receive`/`send` protocol: the routes are data in their order, and a handler's result is an abstract status and body.
- Handlers.UserHandler.Call: a handler is a function, so "calls `get_user` exactly once" is stated only as "its response is determined by one lookup of that key". Starlette's translation of a propagated exception into a 500 response is not modelled.
- Writes through a `Connection` change only that object and are never written back to `Disk`. The program runs one directive per process, so `--migrate` in one process followed by `--run` in a later process opening the migrated file is not modelled. `App.MigrateThenRequest` migrates and serves on one container, which the entry point never does in a single process.
- Services.MigrationService.Run: its `ensures ok` holds only because the storage engine's write failures are not modelled (a read-only or locked file, or a `users` table of another shape). The source's `run` returns `True` only when no statement raises.
