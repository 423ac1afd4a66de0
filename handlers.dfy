/**
 * The two request handlers (src/handlers.py), reduced to the response each
 * one decides on. Encoding the response and sending it over ASGI is left out.
 */
module Handlers {
  import opened Wrappers
  import opened Services

  /** The status `JSONResponse` uses when none is given. */
  const OK_STATUS := 200
  const NOT_FOUND_STATUS := 404

  /** The JSON values the handlers produce; object members keep their order. */
  datatype Json = JString(s: string) | JObject(members: seq<(string, Json)>)

  /** A response as `JSONResponse(content, status_code)` describes it. */
  datatype Response = Response(status: int, body: Json)

  /** What a handler reads from the request: the path parameters of its route. */
  datatype Request = Request(pathParams: map<string, string>)

  /** What a call of `UserHandler` can raise instead of responding. */
  datatype HandlerError = MissingPathParam(name: string) | Storage(error: StorageError)

  const SCREEN_NAME_PARAM := "screen_name"
  const NOT_FOUND_BODY := JObject([("error", JString("User not found"))])
  const HELLO_BODY := JObject([("message", JString("Hello World!"))])

  /** The dict `get_user` returns, as JSON: its screen name, then its name. */
  function UserJson(u: User): Json
  {
    JObject([("screen_name", JString(u.screenName)), ("name", JString(u.name))])
  }

  /** The body of a successful user lookup: `{"user": record}`. */
  function FoundBody(u: User): Json
  {
    JObject([("user", UserJson(u))])
  }

  /**
   * The response `UserHandler` sends for a lookup result: the default status
   * with the record when there is one, 404 with the error body when there is
   * none. Exactly one of the two is chosen.
   */
  function Decide(lookup: Option<User>): (r: Response)
    ensures r.status == OK_STATUS <==> lookup.Some?
    ensures r.status == NOT_FOUND_STATUS <==> lookup.None?
    ensures lookup.Some? ==> r.body == FoundBody(lookup.value)
    ensures lookup.None? ==> r.body == NOT_FOUND_BODY
  {
    match lookup
    case Some(u) => Response(OK_STATUS, FoundBody(u))
    case None => Response(NOT_FOUND_STATUS, NOT_FOUND_BODY)
  }

  /** The response tells the lookup result apart: no two results share a response. */
  lemma DecideDistinguishes(a: Option<User>, b: Option<User>)
    requires Decide(a) == Decide(b)
    ensures a == b
  {
  }

  /** `UserHandler`: answers a request for `/users/{screen_name}`. */
  class UserHandler {
    const users: UserService

    constructor (users: UserService)
      ensures this.users == users
    {
      this.users := users;
    }

    /**
     * `__call__`: reads `path_params["screen_name"]` (a missing parameter
     * raises), looks that exact key up once, and lets a storage error
     * propagate. A function, so the handler's own fields cannot change.
     */
    function Call(request: Request): (r: Result<Response, HandlerError>)
      reads users.db
      ensures SCREEN_NAME_PARAM !in request.pathParams ==> r == Err(MissingPathParam(SCREEN_NAME_PARAM))
      ensures SCREEN_NAME_PARAM in request.pathParams && users.db.table.None? ==> r == Err(Storage(NoSuchTable))
      ensures r.Ok? ==> r.value == Decide(users.GetUser(request.pathParams[SCREEN_NAME_PARAM]).value)
      ensures r.Ok? <==> SCREEN_NAME_PARAM in request.pathParams && users.db.table.Some?
      ensures r.Ok? ==>
                var key := request.pathParams[SCREEN_NAME_PARAM];
                var rows := users.db.table.value;
                (key in rows ==> r.value == Response(OK_STATUS, FoundBody(User(key, rows[key])))) &&
                (key !in rows ==> r.value == Response(NOT_FOUND_STATUS, NOT_FOUND_BODY))
    {
      if SCREEN_NAME_PARAM !in request.pathParams then
        Err(MissingPathParam(SCREEN_NAME_PARAM))
      else
        match users.GetUser(request.pathParams[SCREEN_NAME_PARAM])
        case Err(e) => Err(Storage(e))
        case Ok(user) => Ok(Decide(user))
    }
  }

  /** `HomeHandler`: the greeting at `/`. */
  class HomeHandler {

    constructor ()
    {
    }

    /** `__call__`: whatever the request, the default status and the greeting. */
    function Call(request: Request): (r: Response)
      ensures r.status == OK_STATUS && r.body == HELLO_BODY
    {
      Response(OK_STATUS, HELLO_BODY)
    }
  }

  /**
   * End to end over the storage: after a migration, a request for a seed key
   * answers with that seed user, whatever the table held before.
   */
  lemma SeedUserServed(handler: UserHandler, before: Option<map<string, string>>, key: string)
    requires handler.users.db.table == Some(Migrated(before))
    requires key in SEED_ROWS
    ensures handler.Call(Request(map[SCREEN_NAME_PARAM := key]))
            == Ok(Response(OK_STATUS, FoundBody(User(key, SEED_ROWS[key]))))
  {
  }
}
