/** lib/server.js: the request pipeline shared by the HTTP and HTTPS
    servers. The path is trimmed of slashes, the method lower-cased, the body
    parsed as JSON; the router picks a handler by the trimmed path (notFound
    when there is none); the handler's status code and payload are defaulted
    and the payload is serialised into the response. */
module Server {
  import opened Text
  import opened Js
  import opened Helpers
  import opened Data
  import opened Handlers

  // ===== path trimming =====

  /** `path.replace(/^\/+|\/+$/g, '')`: every leading and every trailing
      slash removed. */
  function TrimPath(path: string): (r: string)
    ensures r == [] || (r[0] != '/' && r[|r| - 1] != '/')
    ensures |r| <= |path|
  {
    Strip(path, IsSlash)
  }

  /** A string of slashes only. */
  predicate AllSlashes(s: string) {
    forall k :: 0 <= k < |s| ==> s[k] == '/'
  }

  /** Trimming removes exactly the outer runs of slashes: the interior,
      slashes inside it included, is kept as it is. */
  lemma TrimPathRemovesOuterSlashes(a: string, r: string, b: string)
    requires AllSlashes(a) && AllSlashes(b)
    requires r == [] || (r[0] != '/' && r[|r| - 1] != '/')
    ensures TrimPath(a + r + b) == r
  {
    StripUnique(a, r, b, IsSlash);
  }

  /** Trimming a trimmed path changes nothing. */
  lemma TrimPathIdempotent(path: string)
    ensures TrimPath(TrimPath(path)) == TrimPath(path)
  {
    StripIdempotent(path, IsSlash);
  }

  /** One slash on either side of a path goes. */
  lemma TrimPathOneSlash(r: string)
    requires r == [] || (r[0] != '/' && r[|r| - 1] != '/')
    ensures TrimPath(['/'] + r) == r
    ensures TrimPath(['/'] + r + ['/']) == r
  {
    TrimPathRemovesOuterSlashes("/", r, "");
    assert "/" + r + "" == ['/'] + r;
    TrimPathRemovesOuterSlashes("/", r, "/");
  }

  // ===== routing =====

  /** The handler a request goes to. */
  datatype Route = UsersRoute | TokensRoute | PingRoute | NotFoundRoute | InheritedMember(name: string)

  /** The members every plain object inherits from Object.prototype. */
  const ObjectPrototypeMembers: set<string> := {
    "constructor", "__defineGetter__", "__defineSetter__", "hasOwnProperty", "__lookupGetter__",
    "__lookupSetter__", "isPrototypeOf", "propertyIsEnumerable", "toString", "valueOf",
    "__proto__", "toLocaleString"}

  /** `typeof router[trimmedPath] !== 'undefined' ? router[trimmedPath] : notFound`
      as written. The router is `{checks, ping, tokens, users}`; `checks` is
      undefined because handlers.js defines no checks handler, and any member
      of Object.prototype passes the `typeof` test too. */
  function ChooseHandlerAsWritten(trimmedPath: string): (r: Route)
    ensures r.InheritedMember? <==> trimmedPath in ObjectPrototypeMembers
  {
    if trimmedPath == "users" then UsersRoute
    else if trimmedPath == "tokens" then TokensRoute
    else if trimmedPath == "ping" then PingRoute
    else if trimmedPath in ObjectPrototypeMembers then InheritedMember(trimmedPath)
    else NotFoundRoute
  }

  /** The handler choice the router is meant to make: its own defined
      entries, and notFound for every other path. */
  function ChooseHandler(trimmedPath: string): (r: Route)
    ensures !r.InheritedMember?
    ensures r != NotFoundRoute <==> trimmedPath in {"users", "tokens", "ping"}
  {
    if trimmedPath == "users" then UsersRoute
    else if trimmedPath == "tokens" then TokensRoute
    else if trimmedPath == "ping" then PingRoute
    else NotFoundRoute
  }

  /** The two choices agree on every path that is not a member name of
      Object.prototype; `checks` routes to notFound in both. */
  lemma ChooseHandlerAgreesWithSource(trimmedPath: string)
    ensures trimmedPath !in ObjectPrototypeMembers ==> ChooseHandlerAsWritten(trimmedPath) == ChooseHandler(trimmedPath)
    ensures ChooseHandler("checks") == NotFoundRoute && ChooseHandlerAsWritten("checks") == NotFoundRoute
  {
  }

  // ===== the response =====

  /** What the client gets: a status and a body, or nothing at all (the
      callback is never called, or the process dies on an exception). */
  datatype Response = Response(status: int, body: string) | NoResponse | Crashed

  /** `typeof statusCode === 'number' ? statusCode : 200`. */
  function StatusOf(statusCode: JsValue): (r: int)
    ensures statusCode.Num? ==> r == statusCode.n
    ensures !statusCode.Num? ==> r == 200
  {
    if statusCode.Num? then statusCode.n else 200
  }

  /** `typeof payload === 'object' ? payload : {}` (null is an object to
      `typeof`). */
  function PayloadOf(payload: JsValue): (r: JsValue)
    ensures payload.Obj? || payload.Arr? || payload.Null? ==> r == payload
    ensures !(payload.Obj? || payload.Arr? || payload.Null?) ==> r == Obj(map[])
  {
    if TypeOf(payload) == "object" then payload else Obj(map[])
  }

  /** The response a handler's reply becomes. */
  function Answer(stringify: JsValue -> string, reply: Reply): Response {
    match reply
    case Reply(status, payload) => Response(StatusOf(Num(status)), stringify(PayloadOf(payload)))
    case NoReply => NoResponse
    case Throws => Crashed
  }

  /** A handler's reply is answered with its own status (every handler
      passes a number, so the 200 default of `StatusOf` is never needed); an
      object, array or null payload is sent as it is, and a reply without a
      payload (`callback(200)`, `callback(404)`) sends `{}`. */
  lemma AnswerDefaults(stringify: JsValue -> string, status: int, payload: JsValue)
    ensures Answer(stringify, Reply(status, payload)).Response?
    ensures Answer(stringify, Reply(status, payload)).status == status
    ensures TypeOf(payload) == "object" ==> Answer(stringify, Reply(status, payload)).body == stringify(payload)
    ensures payload == Undefined ==> Answer(stringify, Reply(status, payload)).body == stringify(Obj(map[]))
  {
  }

  // ===== the unified server =====

  /** A request as the server sees it once the body has been read. */
  datatype Request = Request(pathname: string, query: JsValue, httpMethod: string, headers: JsValue, body: string)

  /** The `data` object built for the handler. */
  function HandlerData(n: Natives, req: Request): RequestData {
    RequestData(TrimPath(req.pathname), req.query, ToLower(req.httpMethod), req.headers,
                ParseJsonToObject(n, Str(req.body)))
  }

  /** The response and the database after a request sent along `route`. */
  function Dispatch(ctx: Context, stringify: JsValue -> string, db: Database, route: Route, data: RequestData): (Response, Database) {
    match route
    case UsersRoute => var o := UsersOutcome(ctx, db, data); (Answer(stringify, o.reply), o.db)
    case TokensRoute => var o := TokensOutcome(ctx, db, data); (Answer(stringify, o.reply), o.db)
    case PingRoute => (Answer(stringify, PingReply), db)
    case NotFoundRoute => (Answer(stringify, NotFoundReply), db)
    case InheritedMember(_) => (NoResponse, db)
  }

  /** unifiedServer as written: an inherited member is called as the handler
      and never calls back (`constructor` and `toString` just return; the
      others throw a TypeError). */
  function ServeAsWritten(ctx: Context, stringify: JsValue -> string, db: Database, req: Request): (Response, Database) {
    var data := HandlerData(ctx.natives, req);
    Dispatch(ctx, stringify, db, ChooseHandlerAsWritten(data.trimmedPath), data)
  }

  /** unifiedServer with the router's own entries only. */
  function Serve(ctx: Context, stringify: JsValue -> string, db: Database, req: Request): (Response, Database) {
    var data := HandlerData(ctx.natives, req);
    Dispatch(ctx, stringify, db, ChooseHandler(data.trimmedPath), data)
  }

  /** As written, a path naming a member of Object.prototype is never
      answered, and the database is left as it was. */
  lemma InheritedPathUnansweredAsWritten(ctx: Context, stringify: JsValue -> string, db: Database, req: Request)
    requires TrimPath(req.pathname) in ObjectPrototypeMembers
    ensures ServeAsWritten(ctx, stringify, db, req) == (NoResponse, db)
  {
    var data := HandlerData(ctx.natives, req);
    assert ChooseHandlerAsWritten(data.trimmedPath) == InheritedMember(data.trimmedPath);
  }

  /** `/constructor` is such a path: as written, a request for it is never
      answered, while the router's own entries send it to notFound. */
  lemma ConstructorPathNeverAnsweredAsWritten(ctx: Context, stringify: JsValue -> string, db: Database, req: Request)
    requires req.pathname == "/constructor"
    ensures ServeAsWritten(ctx, stringify, db, req) == (NoResponse, db)
    ensures Serve(ctx, stringify, db, req) == (Response(404, stringify(Obj(map[]))), db)
  {
    assert TrimPath(req.pathname) == "constructor" by {
      assert req.pathname == ['/'] + "constructor";
      TrimPathOneSlash("constructor");
    }
    assert "constructor" in ObjectPrototypeMembers;
    InheritedPathUnansweredAsWritten(ctx, stringify, db, req);
    UnknownPathIsNotFound(ctx, stringify, db, req);
  }

  /** Every path other than users, tokens and ping, with any slashes around
      it, is answered 404 with the body `{}` and changes nothing; the path
      `checks` is one of them. */
  lemma UnknownPathIsNotFound(ctx: Context, stringify: JsValue -> string, db: Database, req: Request)
    requires TrimPath(req.pathname) !in {"users", "tokens", "ping"}
    ensures Serve(ctx, stringify, db, req) == (Response(404, stringify(Obj(map[]))), db)
  {
  }

  /** A path that trims to `ping` (`/ping`, `/ping/`, ...) is answered 200
      with the pinged message, whatever the method. */
  lemma PingAnswers(ctx: Context, stringify: JsValue -> string, db: Database, req: Request)
    requires TrimPath(req.pathname) == "ping"
    ensures Serve(ctx, stringify, db, req)
              == (Response(200, stringify(Obj(map["pinged" := Str("Server ping successful.")]))), db)
  {
  }

  /** The method is matched without regard to letter case: `POST` and
      `post` are served alike. */
  lemma MethodCaseIgnored(ctx: Context, stringify: JsValue -> string, db: Database, req: Request)
    ensures Serve(ctx, stringify, db, req.(httpMethod := ToUpper(req.httpMethod)))
         == Serve(ctx, stringify, db, req.(httpMethod := ToLower(req.httpMethod)))
  {
    LowerOfUpper(req.httpMethod);
    LowerIdempotent(req.httpMethod);
  }

  lemma LowerOfUpper(s: string)
    ensures ToLower(ToUpper(s)) == ToLower(s)
  {
  }

  lemma LowerIdempotent(s: string)
    ensures ToLower(ToLower(s)) == ToLower(s)
  {
  }

  /** A handler that never calls back leaves the request unanswered, and a
      request to the tokens handler with method put is one. */
  lemma TokensPutNeverAnswered(ctx: Context, stringify: JsValue -> string, db: Database, req: Request)
    requires TrimPath(req.pathname) == "tokens" && ToLower(req.httpMethod) == "put"
    ensures Serve(ctx, stringify, db, req) == (NoResponse, db)
  {
  }

  /** The server: the handlers' store and the foreign code it calls. */
  class HttpServer {
    const api: Api
    const stringify: JsValue -> string

    constructor (api: Api, stringify: JsValue -> string)
      ensures this.api == api && this.stringify == stringify
    {
      this.api := api;
      this.stringify := stringify;
    }

    /** unifiedServer, once the request body has been read; `ctx` is this
        request's clock reading, random draws and write faults. */
    method UnifiedServer(ctx: Context, req: Request) returns (res: Response)
      modifies api.store
      ensures (res, api.store.db) == Serve(ctx, stringify, old(api.store.db), req)
    {
      var trimmedPath := TrimPath(req.pathname);
      var data := RequestData(trimmedPath, req.query, ToLower(req.httpMethod), req.headers,
                              ParseJsonToObject(ctx.natives, Str(req.body)));
      var reply: Reply;
      match ChooseHandler(trimmedPath) {
        case UsersRoute => reply := api.Users(ctx, data);
        case TokensRoute => reply := api.Tokens(ctx, data);
        case PingRoute => reply := PingReply;
        case NotFoundRoute => reply := NotFoundReply;
      }
      match reply {
        case Reply(status, payload) =>
          var statusCode := Num(status);
          var body := payload;
          statusCode := Num(StatusOf(statusCode));
          body := PayloadOf(body);
          res := Response(statusCode.n, stringify(body));
        case NoReply => res := NoResponse;
        case Throws => res := Crashed;
      }
    }
  }
}
