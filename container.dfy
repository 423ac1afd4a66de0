/**
 * The composition root (src/container.py): one object with an optional slot
 * per component. Each accessor fills its slot only while it is empty, asking
 * the accessors of the component's dependencies first, and afterwards
 * returns what the slot holds.
 */
module Container {
  import opened Wrappers
  import opened Services
  import opened Handlers

  const DB_FILENAME := "db.sqlite"
  const USER_ROUTE_PATH := "/users/{screen_name}"
  const HELLO_ROUTE_PATH := "/"

  /** The handler object a route dispatches to. */
  datatype Endpoint = UserEndpoint(userHandler: UserHandler) | HomeEndpoint(homeHandler: HomeHandler)

  /** `starlette.routing.Route` as data; `None` methods means any method. */
  datatype Route = Route(path: string, endpoint: Endpoint, methods: Option<seq<string>>)

  /** The route `user_route` builds around a user handler. */
  function UserRouteFor(h: UserHandler): Route
  {
    Route(USER_ROUTE_PATH, UserEndpoint(h), Some(["GET"]))
  }

  /** The route `hello_route` builds around a home handler. */
  function HelloRouteFor(h: HomeHandler): Route
  {
    Route(HELLO_ROUTE_PATH, HomeEndpoint(h), None)
  }

  /** The `Starlette` application: its routes in the order they are tried. */
  class Application {
    const routes: seq<Route>

    constructor (routes: seq<Route>)
      ensures this.routes == routes
    {
      this.routes := routes;
    }
  }

  /** The slots of `Compiled`, one per component. */
  datatype Slot =
    | DbSlot | UsersSlot | MigrationsSlot | UserHandlerSlot
    | HomeHandlerSlot | UserRouteSlot | HelloRouteSlot | AppSlot

  /**
   * The components each accessor obtains directly, before building its own:
   * the same dependencies as the wiring conjuncts of `Compiled.Valid`.
   */
  function Deps(s: Slot): set<Slot>
  {
    match s
    case DbSlot => {}
    case UsersSlot => {DbSlot}
    case MigrationsSlot => {DbSlot}
    case UserHandlerSlot => {UsersSlot}
    case HomeHandlerSlot => {}
    case UserRouteSlot => {UserHandlerSlot}
    case HelloRouteSlot => {HomeHandlerSlot}
    case AppSlot => {UserRouteSlot, HelloRouteSlot}
  }

  /**
   * Whether the accessor of slot `a`, called on a fresh container, fills slot
   * `s`: `a` itself and, transitively, everything it depends on.
   */
  predicate Fills(a: Slot, s: Slot)
  {
    match a
    case DbSlot => s == DbSlot
    case UsersSlot => s == UsersSlot || s == DbSlot
    case MigrationsSlot => s == MigrationsSlot || s == DbSlot
    case UserHandlerSlot => s == UserHandlerSlot || s == UsersSlot || s == DbSlot
    case HomeHandlerSlot => s == HomeHandlerSlot
    case UserRouteSlot => s == UserRouteSlot || s == UserHandlerSlot || s == UsersSlot || s == DbSlot
    case HelloRouteSlot => s == HelloRouteSlot || s == HomeHandlerSlot
    case AppSlot => s != MigrationsSlot
  }

  /** `Fills` is the reflexive, transitive closure of `Deps`. */
  lemma FillsClosed(a: Slot, d: Slot, s: Slot)
    requires d in Deps(a) && Fills(d, s)
    ensures Fills(a, a) && Fills(a, d) && Fills(a, s)
  {
  }

  /** What an accessor fills beyond its own slot comes from its dependencies. */
  lemma FillsOnlyDeps(a: Slot, s: Slot)
    requires Fills(a, s) && s != a
    ensures exists d :: d in Deps(a) && Fills(d, s)
  {
  }

  /** Only `migrations()` itself ever fills the migrations slot. */
  lemma MigrationsOnlyByItself(a: Slot)
    ensures Fills(a, MigrationsSlot) <==> a == MigrationsSlot
  {
  }

  /**
   * The container `Compiled`. Each slot has a ghost counter of the times its
   * component was constructed.
   */
  class Compiled {
    var db: Option<Connection>
    var users: Option<UserService>
    var migrations: Option<MigrationService>
    var userHandler: Option<UserHandler>
    var homeHandler: Option<HomeHandler>
    var userRoute: Option<Route>
    var helloRoute: Option<Route>
    var app: Option<Application>
    ghost var dbBuilds: nat
    ghost var usersBuilds: nat
    ghost var migrationsBuilds: nat
    ghost var userHandlerBuilds: nat
    ghost var homeHandlerBuilds: nat
    ghost var userRouteBuilds: nat
    ghost var helloRouteBuilds: nat
    ghost var appBuilds: nat

    /** Whether slot `s` holds a component (`hasattr` in the source). */
    predicate Has(s: Slot)
      reads this
    {
      match s
      case DbSlot => db.Some?
      case UsersSlot => users.Some?
      case MigrationsSlot => migrations.Some?
      case UserHandlerSlot => userHandler.Some?
      case HomeHandlerSlot => homeHandler.Some?
      case UserRouteSlot => userRoute.Some?
      case HelloRouteSlot => helloRoute.Some?
      case AppSlot => app.Some?
    }

    /** How many times the component of slot `s` has been constructed. */
    ghost function Builds(s: Slot): nat
      reads this
    {
      match s
      case DbSlot => dbBuilds
      case UsersSlot => usersBuilds
      case MigrationsSlot => migrationsBuilds
      case UserHandlerSlot => userHandlerBuilds
      case HomeHandlerSlot => homeHandlerBuilds
      case UserRouteSlot => userRouteBuilds
      case HelloRouteSlot => helloRouteBuilds
      case AppSlot => appBuilds
    }

    /**
     * The object graph is wired through the accessors: every filled slot
     * holds a component built on the components in its dependencies' slots,
     * and each filled slot was constructed exactly once, each empty one never.
     */
    ghost predicate Valid()
      reads this
    {
      dbBuilds == (if db.Some? then 1 else 0) &&
      usersBuilds == (if users.Some? then 1 else 0) &&
      migrationsBuilds == (if migrations.Some? then 1 else 0) &&
      userHandlerBuilds == (if userHandler.Some? then 1 else 0) &&
      homeHandlerBuilds == (if homeHandler.Some? then 1 else 0) &&
      userRouteBuilds == (if userRoute.Some? then 1 else 0) &&
      helloRouteBuilds == (if helloRoute.Some? then 1 else 0) &&
      appBuilds == (if app.Some? then 1 else 0) &&
      (users.Some? ==> db.Some? && users.value.db == db.value) &&
      (migrations.Some? ==> db.Some? && migrations.value.db == db.value) &&
      (userHandler.Some? ==> users.Some? && userHandler.value.users == users.value) &&
      (userRoute.Some? ==> userHandler.Some? && userRoute.value == UserRouteFor(userHandler.value)) &&
      (helloRoute.Some? ==> homeHandler.Some? && helloRoute.value == HelloRouteFor(homeHandler.value)) &&
      (app.Some? ==> userRoute.Some? && helloRoute.Some? &&
                     app.value.routes == [userRoute.value, helloRoute.value])
    }

    /** Every slot that the accessor of `a` fills holds a component. */
    predicate HasAll(a: Slot)
      reads this
    {
      (Fills(a, DbSlot) ==> db.Some?) &&
      (Fills(a, UsersSlot) ==> users.Some?) &&
      (Fills(a, MigrationsSlot) ==> migrations.Some?) &&
      (Fills(a, UserHandlerSlot) ==> userHandler.Some?) &&
      (Fills(a, HomeHandlerSlot) ==> homeHandler.Some?) &&
      (Fills(a, UserRouteSlot) ==> userRoute.Some?) &&
      (Fills(a, HelloRouteSlot) ==> helloRoute.Some?) &&
      (Fills(a, AppSlot) ==> app.Some?)
    }

    /**
     * Between two states: a filled slot keeps its component, and a connection
     * the container receives is a new object.
     */
    twostate predicate Kept()
      reads this
    {
      (old(db).Some? ==> db == old(db)) &&
      (old(users).Some? ==> users == old(users)) &&
      (old(migrations).Some? ==> migrations == old(migrations)) &&
      (old(userHandler).Some? ==> userHandler == old(userHandler)) &&
      (old(homeHandler).Some? ==> homeHandler == old(homeHandler)) &&
      (old(userRoute).Some? ==> userRoute == old(userRoute)) &&
      (old(helloRoute).Some? ==> helloRoute == old(helloRoute)) &&
      (old(app).Some? ==> app == old(app)) &&
      (old(db).None? && db.Some? ==> fresh(db.value))
    }

    /** The connection object, once there is one: what a migration may write to. */
    ghost function Storage(): set<object>
      reads this
    {
      if db.Some? then {db.value} else {}
    }

    constructor ()
      ensures Valid()
      ensures forall s :: !Has(s)
      ensures db.None? && users.None? && migrations.None? && userHandler.None?
      ensures homeHandler.None? && userRoute.None? && helloRoute.None? && app.None?
    {
      db, users, migrations := None, None, None;
      userHandler, homeHandler := None, None;
      userRoute, helloRoute, app := None, None, None;
      dbBuilds, usersBuilds, migrationsBuilds, userHandlerBuilds := 0, 0, 0, 0;
      homeHandlerBuilds, userRouteBuilds, helloRouteBuilds, appBuilds := 0, 0, 0, 0;
    }

    /** `db()`: opens `db.sqlite` on first use; a failed open leaves the slot empty. */
    method Db(disk: Disk) returns (r: Result<Connection, OpenError>)
      requires Valid()
      modifies this`db, this`dbBuilds
      ensures Valid()
      ensures Kept()
      ensures r.Ok? <==> old(db).Some? || disk.opens
      ensures r.Err? ==> r.error == CannotOpen(DB_FILENAME) && unchanged(this)
      ensures r.Ok? ==> db == Some(r.value) && HasAll(DbSlot)
      ensures users == old(users) && migrations == old(migrations) &&
              userHandler == old(userHandler) && homeHandler == old(homeHandler) &&
              userRoute == old(userRoute) && helloRoute == old(helloRoute) && app == old(app)
      ensures old(db).Some? ==> r == Ok(old(db).value)
      ensures old(db).None? && r.Ok? ==> r.value.filename == DB_FILENAME && r.value.table == disk.stored
    {
      if db.None? {
        var c :- Open(DB_FILENAME, disk);
        db := Some(c);
        dbBuilds := dbBuilds + 1;
      }
      r := Ok(db.value);
    }

    /** `users()`: a user service on the container's one connection. */
    method Users(disk: Disk) returns (r: Result<UserService, OpenError>)
      requires Valid()
      modifies this`users, this`usersBuilds, this`db, this`dbBuilds
      ensures Valid()
      ensures Kept()
      ensures r.Ok? <==> old(db).Some? || disk.opens
      ensures r.Err? ==> unchanged(this)
      ensures r.Ok? ==> users == Some(r.value) && r.value.db == db.value && HasAll(UsersSlot)
      ensures migrations == old(migrations) && userHandler == old(userHandler) &&
              homeHandler == old(homeHandler) && userRoute == old(userRoute) &&
              helloRoute == old(helloRoute) && app == old(app)
      ensures old(users).Some? ==> r == Ok(old(users).value)
      ensures old(db).None? && r.Ok? ==> db.value.filename == DB_FILENAME && db.value.table == disk.stored
    {
      if users.None? {
        var c :- Db(disk);
        var s := new UserService(c);
        users := Some(s);
        usersBuilds := usersBuilds + 1;
      }
      r := Ok(users.value);
    }

    /** `migrations()`: a migration service on the container's one connection. */
    method Migrations(disk: Disk) returns (r: Result<MigrationService, OpenError>)
      requires Valid()
      modifies this`migrations, this`migrationsBuilds, this`db, this`dbBuilds
      ensures Valid()
      ensures Kept()
      ensures r.Ok? <==> old(db).Some? || disk.opens
      ensures r.Err? ==> unchanged(this)
      ensures r.Ok? ==> migrations == Some(r.value) && r.value.db == db.value && HasAll(MigrationsSlot)
      ensures users == old(users) && userHandler == old(userHandler) &&
              homeHandler == old(homeHandler) && userRoute == old(userRoute) &&
              helloRoute == old(helloRoute) && app == old(app)
      ensures old(migrations).Some? ==> r == Ok(old(migrations).value)
      ensures old(db).None? && r.Ok? ==> db.value.filename == DB_FILENAME && db.value.table == disk.stored
    {
      if migrations.None? {
        var c :- Db(disk);
        var m := new MigrationService(c);
        migrations := Some(m);
        migrationsBuilds := migrationsBuilds + 1;
      }
      r := Ok(migrations.value);
    }

    /** `user_handler()`: a user handler on the container's user service. */
    method UserHandler(disk: Disk) returns (r: Result<Handlers.UserHandler, OpenError>)
      requires Valid()
      modifies this`userHandler, this`userHandlerBuilds, this`users, this`usersBuilds, this`db, this`dbBuilds
      ensures Valid()
      ensures Kept()
      ensures r.Ok? <==> old(db).Some? || disk.opens
      ensures r.Err? ==> unchanged(this)
      ensures r.Ok? ==> userHandler == Some(r.value) && r.value.users == users.value && HasAll(UserHandlerSlot)
      ensures migrations == old(migrations) && homeHandler == old(homeHandler) &&
              userRoute == old(userRoute) && helloRoute == old(helloRoute) && app == old(app)
      ensures old(userHandler).Some? ==> r == Ok(old(userHandler).value)
      ensures old(db).None? && r.Ok? ==> db.value.filename == DB_FILENAME && db.value.table == disk.stored
    {
      if userHandler.None? {
        var s :- Users(disk);
        var h := new Handlers.UserHandler(s);
        userHandler := Some(h);
        userHandlerBuilds := userHandlerBuilds + 1;
      }
      r := Ok(userHandler.value);
    }

    /** `home_handler()`: has no dependencies and cannot fail. */
    method HomeHandler() returns (r: Handlers.HomeHandler)
      requires Valid()
      modifies this`homeHandler, this`homeHandlerBuilds
      ensures Valid()
      ensures Kept()
      ensures homeHandler == Some(r) && HasAll(HomeHandlerSlot)
      ensures db == old(db) && users == old(users) && migrations == old(migrations) &&
              userHandler == old(userHandler) && userRoute == old(userRoute) &&
              helloRoute == old(helloRoute) && app == old(app)
      ensures old(homeHandler).Some? ==> r == old(homeHandler).value
    {
      if homeHandler.None? {
        var h := new Handlers.HomeHandler();
        homeHandler := Some(h);
        homeHandlerBuilds := homeHandlerBuilds + 1;
      }
      r := homeHandler.value;
    }

    /** `user_route()`: `GET /users/{screen_name}` to the container's user handler. */
    method UserRoute(disk: Disk) returns (r: Result<Route, OpenError>)
      requires Valid()
      modifies this`userRoute, this`userRouteBuilds, this`userHandler, this`userHandlerBuilds, this`users, this`usersBuilds, this`db, this`dbBuilds
      ensures Valid()
      ensures Kept()
      ensures r.Ok? <==> old(db).Some? || disk.opens
      ensures r.Err? ==> unchanged(this)
      ensures r.Ok? ==> userRoute == Some(r.value) && r.value == UserRouteFor(userHandler.value)
      ensures r.Ok? ==> HasAll(UserRouteSlot)
      ensures migrations == old(migrations) && homeHandler == old(homeHandler) &&
              helloRoute == old(helloRoute) && app == old(app)
      ensures old(userRoute).Some? ==> r == Ok(old(userRoute).value)
      ensures old(db).None? && r.Ok? ==> db.value.filename == DB_FILENAME && db.value.table == disk.stored
    {
      if userRoute.None? {
        var h :- UserHandler(disk);
        userRoute := Some(UserRouteFor(h));
        userRouteBuilds := userRouteBuilds + 1;
      }
      r := Ok(userRoute.value);
    }

    /** `hello_route()`: `/`, any method, to the container's home handler. */
    method HelloRoute() returns (r: Route)
      requires Valid()
      modifies this`helloRoute, this`helloRouteBuilds, this`homeHandler, this`homeHandlerBuilds
      ensures Valid()
      ensures Kept()
      ensures helloRoute == Some(r) && r == HelloRouteFor(homeHandler.value)
      ensures HasAll(HelloRouteSlot)
      ensures db == old(db) && users == old(users) && migrations == old(migrations) &&
              userHandler == old(userHandler) && userRoute == old(userRoute) && app == old(app)
      ensures old(helloRoute).Some? ==> r == old(helloRoute).value
    {
      if helloRoute.None? {
        var h := HomeHandler();
        helloRoute := Some(HelloRouteFor(h));
        helloRouteBuilds := helloRouteBuilds + 1;
      }
      r := helloRoute.value;
    }

    /** `app()`: the application with the user route first, then the hello route. */
    method App(disk: Disk) returns (r: Result<Application, OpenError>)
      requires Valid()
      modifies this`app, this`appBuilds, this`userRoute, this`userRouteBuilds, this`helloRoute, this`helloRouteBuilds, this`userHandler, this`userHandlerBuilds, this`homeHandler, this`homeHandlerBuilds, this`users, this`usersBuilds, this`db, this`dbBuilds
      ensures Valid()
      ensures Kept()
      ensures r.Ok? <==> old(db).Some? || disk.opens
      ensures r.Err? ==> unchanged(this)
      ensures r.Ok? ==> app == Some(r.value) && r.value.routes == [userRoute.value, helloRoute.value]
      ensures r.Ok? ==> HasAll(AppSlot)
      ensures migrations == old(migrations)
      ensures old(app).Some? ==> r == Ok(old(app).value)
      ensures old(db).None? && r.Ok? ==> db.value.filename == DB_FILENAME && db.value.table == disk.stored
    {
      if app.None? {
        var ur :- UserRoute(disk);
        var hr := HelloRoute();
        var a := new Application([ur, hr]);
        app := Some(a);
        appBuilds := appBuilds + 1;
      }
      r := Ok(app.value);
    }
  }

  /**
   * `migrations()` on a new container: it fills the connection and the
   * migration service and nothing else, or, when the file does not open,
   * nothing at all.
   */
  method MigrationsFills(disk: Disk) returns (c: Compiled, r: Result<MigrationService, OpenError>)
    ensures c.Valid()
    ensures r.Ok? <==> disk.opens
    ensures r.Ok? ==> forall s :: c.Has(s) <==> s == DbSlot || s == MigrationsSlot
    ensures r.Err? ==> forall s :: !c.Has(s)
  {
    c := new Compiled();
    r := c.Migrations(disk);
  }

  /**
   * `app()` on a new container: it fills every slot except the migration
   * service's, or, when the file does not open, nothing at all.
   */
  method AppFills(disk: Disk) returns (c: Compiled, r: Result<Application, OpenError>)
    ensures c.Valid()
    ensures r.Ok? <==> disk.opens
    ensures r.Ok? ==> forall s :: c.Has(s) <==> s != MigrationsSlot
    ensures r.Err? ==> forall s :: !c.Has(s)
  {
    c := new Compiled();
    r := c.App(disk);
  }

  /** In a valid container no component has been constructed more than once. */
  lemma BuiltAtMostOnce(c: Compiled, s: Slot)
    requires c.Valid()
    ensures c.Builds(s) <= 1
    ensures c.Builds(s) == 1 <==> c.Has(s)
  {
  }

  /**
   * The application of a valid container routes `GET /users/{screen_name}` to
   * the container's user handler first, then `/` with any method to its home
   * handler, and the user handler reaches the container's one connection.
   */
  lemma AppWiring(c: Compiled)
    requires c.Valid() && c.app.Some?
    ensures |c.app.value.routes| == 2
    ensures c.app.value.routes[0].path == USER_ROUTE_PATH && c.app.value.routes[0].methods == Some(["GET"])
    ensures c.app.value.routes[0].endpoint == UserEndpoint(c.userHandler.value)
    ensures c.app.value.routes[1].path == HELLO_ROUTE_PATH && c.app.value.routes[1].methods.None?
    ensures c.app.value.routes[1].endpoint == HomeEndpoint(c.homeHandler.value)
    ensures c.userHandler.value.users == c.users.value && c.users.value.db == c.db.value
  {
  }

  /** Both services of a valid container hold the same connection object. */
  lemma OneConnection(c: Compiled)
    requires c.Valid() && c.users.Some? && c.migrations.Some?
    ensures c.users.value.db == c.migrations.value.db
  {
  }
}
