/**
 * The entry point (src/app.py): `create_app`, the factory the server calls,
 * and the choice of what the process does from the flags in its argument
 * vector.
 */
module App {
  import opened Wrappers
  import opened Services
  import opened Handlers
  import opened Container

  const COMPILE_FLAG := "--compile"
  const MIGRATE_FLAG := "--migrate"
  const RUN_FLAG := "--run"

  /** What the process does. */
  datatype Directive = Compile | Migrate | Run | Usage

  /** The text printed when no flag is recognised, one element per line. */
  const USAGE_LINES: seq<string> := [
    "Usage:",
    "  python src/app.py --migrate  - Migrate the database",
    "  python src/app.py --compile  - Compile the container",
    "  python src/app.py --run      - Run the application"
  ]

  /**
   * The `if`/`elif` chain of the entry point: the first flag of `--compile`,
   * `--migrate`, `--run` (in that order of priority) present anywhere in
   * `argv` decides; with none of them the usage text is shown.
   */
  function SelectDirective(argv: seq<string>): (d: Directive)
    ensures d == Compile <==> COMPILE_FLAG in argv
    ensures d == Migrate <==> MIGRATE_FLAG in argv && COMPILE_FLAG !in argv
    ensures d == Run <==> RUN_FLAG in argv && COMPILE_FLAG !in argv && MIGRATE_FLAG !in argv
    ensures d == Usage <==> COMPILE_FLAG !in argv && MIGRATE_FLAG !in argv && RUN_FLAG !in argv
  {
    if COMPILE_FLAG in argv then Compile
    else if MIGRATE_FLAG in argv then Migrate
    else if RUN_FLAG in argv then Run
    else Usage
  }

  /** Whether `x` is one of the three recognised flags. */
  predicate IsFlag(x: string)
  {
    x == COMPILE_FLAG || x == MIGRATE_FLAG || x == RUN_FLAG
  }

  /** Two argument vectors that agree on which flags they contain select the same directive. */
  lemma OnlyMembershipMatters(a: seq<string>, b: seq<string>)
    requires COMPILE_FLAG in a <==> COMPILE_FLAG in b
    requires MIGRATE_FLAG in a <==> MIGRATE_FLAG in b
    requires RUN_FLAG in a <==> RUN_FLAG in b
    ensures SelectDirective(a) == SelectDirective(b)
  {
  }

  /** Reordering the arguments does not change the directive. */
  lemma ReorderingIgnored(a: seq<string>, b: seq<string>)
    requires multiset(a) == multiset(b)
    ensures SelectDirective(a) == SelectDirective(b)
  {
    forall x | x in a
      ensures x in b
    {
      assert x in multiset(a);
    }
    forall x | x in b
      ensures x in a
    {
      assert x in multiset(b);
    }
    OnlyMembershipMatters(a, b);
  }

  /** Inserting an argument that is not a recognised flag does not change the directive. */
  lemma UnrelatedArgumentIgnored(a: seq<string>, b: seq<string>, x: string)
    requires !IsFlag(x)
    ensures SelectDirective(a + [x] + b) == SelectDirective(a + b)
  {
  }

  /** Whatever else is present, a `--compile` anywhere selects Compile. */
  lemma CompileWins(a: seq<string>, b: seq<string>)
    ensures SelectDirective(a + [COMPILE_FLAG] + b) == Compile
  {
  }

  /** The usage text has four lines. */
  lemma UsageHasFourLines()
    ensures |USAGE_LINES| == 4 && USAGE_LINES[0] == "Usage:"
  {
  }

  /** `create_app`: the application singleton of `compiled`. */
  method CreateApp(compiled: Compiled, disk: Disk) returns (r: Result<Application, OpenError>)
    requires compiled.Valid()
    modifies compiled
    ensures compiled.Valid() && compiled.Kept()
    ensures r.Ok? <==> old(compiled.db).Some? || disk.opens
    ensures r.Ok? ==> compiled.app == Some(r.value) && compiled.HasAll(AppSlot)
    ensures r.Err? ==> unchanged(compiled)
    ensures old(compiled.app).Some? ==> r == Ok(old(compiled.app).value)
    ensures compiled.migrations == old(compiled.migrations)
    ensures old(compiled.db).None? && r.Ok? ==>
              compiled.db.value.filename == DB_FILENAME && compiled.db.value.table == disk.stored
  {
    r := compiled.App(disk);
  }

  /** What running the entry point amounts to in this model. */
  datatype Outcome =
    | CompileLeftOut
    | MigrationRan(ok: bool)
    | MigrationFailed(error: OpenError)
    | Serving(app: Application)
    | ServingFailed(error: OpenError)
    | UsageShown(lines: seq<string>)

  /**
   * The `__main__` block with `compiled` as the module singleton. Compiling
   * the container is not modelled; serving is modelled as the server
   * calling `create_app` once at start-up.
   */
  method Execute(argv: seq<string>, compiled: Compiled, disk: Disk) returns (o: Outcome)
    requires compiled.Valid()
    modifies compiled, compiled.Storage()
    ensures compiled.Valid() && compiled.Kept()
    ensures SelectDirective(argv) == Compile ==> o == CompileLeftOut && unchanged(compiled)
    ensures SelectDirective(argv) == Usage ==> o == UsageShown(USAGE_LINES) && unchanged(compiled)
    ensures SelectDirective(argv) == Migrate ==>
              (o.MigrationRan? <==> old(compiled.db).Some? || disk.opens) &&
              (!o.MigrationRan? ==> o.MigrationFailed? && unchanged(compiled))
    ensures SelectDirective(argv) == Migrate && o.MigrationRan? ==>
              o.ok && compiled.HasAll(MigrationsSlot) && compiled.users == old(compiled.users) &&
              compiled.userHandler == old(compiled.userHandler) &&
              compiled.homeHandler == old(compiled.homeHandler) &&
              compiled.userRoute == old(compiled.userRoute) &&
              compiled.helloRoute == old(compiled.helloRoute) &&
              compiled.app == old(compiled.app) &&
              compiled.db.value.table ==
                Some(Migrated(if old(compiled.db).Some? then old(compiled.db.value.table) else disk.stored))
    ensures SelectDirective(argv) == Run ==>
              (o.Serving? <==> old(compiled.db).Some? || disk.opens) &&
              (o.Serving? ==> compiled.app == Some(o.app)) &&
              (o.ServingFailed? ==> unchanged(compiled)) &&
              compiled.migrations == old(compiled.migrations)
    ensures SelectDirective(argv) == Run && o.Serving? && old(compiled.db).None? ==>
              compiled.db.value.filename == DB_FILENAME && compiled.db.value.table == disk.stored
    ensures SelectDirective(argv) != Migrate ==> unchanged(old(compiled.Storage()))
  {
    var directive := SelectDirective(argv);
    if directive == Compile {
      o := CompileLeftOut;
    } else if directive == Migrate {
      var migrations := compiled.Migrations(disk);
      if migrations.Err? {
        o := MigrationFailed(migrations.error);
      } else {
        var ok := migrations.value.Run();
        o := MigrationRan(ok);
      }
    } else if directive == Run {
      var app := CreateApp(compiled, disk);
      if app.Err? {
        o := ServingFailed(app.error);
      } else {
        o := Serving(app.value);
      }
    } else {
      o := UsageShown(USAGE_LINES);
    }
  }

  /**
   * A migration followed by a request for a seed user, on one container:
   * the user handler reads the connection the migration wrote, so the seed
   * user is served.
   */
  method MigrateThenRequest(compiled: Compiled, disk: Disk, key: string)
    returns (r: Result<Result<Response, HandlerError>, OpenError>)
    requires compiled.Valid()
    requires key in SEED_ROWS
    modifies compiled, compiled.Storage()
    ensures compiled.Valid() && compiled.Kept()
    ensures r.Ok? <==> old(compiled.db).Some? || disk.opens
    ensures r.Ok? ==>
              compiled.userHandler.Some? &&
              r.value == compiled.userHandler.value.Call(Request(map[SCREEN_NAME_PARAM := key]))
    ensures r.Ok? ==> r.value == Ok(Response(OK_STATUS, FoundBody(User(key, SEED_ROWS[key]))))
  {
    var migrations :- compiled.Migrations(disk);
    ghost var before := migrations.db.table;
    var _ := migrations.Run();
    var handler := compiled.UserHandler(disk);
    SeedUserServed(handler.value, before, key);
    r := Ok(handler.value.Call(Request(map[SCREEN_NAME_PARAM := key])));
  }
}
