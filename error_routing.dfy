/** The error side of an Api (pprika/restful.py): how an Api installs its error
    router into an application the first time any Api registers, which errors
    the router claims, and how `handle_error` normalises whatever was raised into
    the Api's exception class and its JSON response. */
module ErrorRouting {
  import opened Common
  import opened Responses
  import opened Exceptions

  /** Something raised while a request is handled. */
  datatype Raised =
    | ApiRaised(exc: ExcInstance)                  // an ApiException (or subclass) instance
    | HttpRaised(code: int, description: string)   // a werkzeug HTTPException
    | OtherRaised(kind: string, text: string)      // any other exception; text is str(e)

  /** The name and exception class of one Api; this is all its router needs. */
  datatype ApiInfo = ApiInfo(name: string, exceptionCls: ExcClass)

  /** The application's `handle_user_exception` slot: the application's own
      handler, or `partial(api._error_router, app.handle_exception)`. */
  datatype UserExceptionHandler = AppHandler | ApiRouter(api: ApiInfo)

  /** The two pieces of application state an Api touches: `api_set` and the
      `handle_user_exception` slot. */
  datatype ApiRegistry = ApiRegistry(apiSet: set<string>, handler: UserExceptionHandler)

  const NoApis := ApiRegistry({}, AppHandler)

  /** `Api._init_app(app)`: the router is installed only while `api_set` is
      empty; the Api's name is always added. */
  function InitApp(reg: ApiRegistry, api: ApiInfo): (r: ApiRegistry)
    ensures r.apiSet == reg.apiSet + {api.name}
    ensures reg.apiSet == {} ==> r.handler == ApiRouter(api)
    ensures reg.apiSet != {} ==> r.handler == reg.handler
  {
    if reg.apiSet == {} then ApiRegistry(reg.apiSet + {api.name}, ApiRouter(api))
    else ApiRegistry(reg.apiSet + {api.name}, reg.handler)
  }

  /** Several Apis initialised one after the other. */
  function InitApps(reg: ApiRegistry, apis: seq<ApiInfo>): ApiRegistry
    decreases |apis|
  {
    if apis == [] then reg else InitApps(InitApp(reg, apis[0]), apis[1..])
  }

  function Names(apis: seq<ApiInfo>): (r: set<string>)
    ensures forall a :: a in apis ==> a.name in r
    ensures forall n :: n in r ==> exists a :: a in apis && a.name == n
  {
    set a | a in apis :: a.name
  }

  /** Once some Api is installed, later initialisations only add names. */
  lemma {:induction false} InitAppsAfterFirst(reg: ApiRegistry, apis: seq<ApiInfo>)
    requires reg.apiSet != {}
    ensures InitApps(reg, apis) == ApiRegistry(reg.apiSet + Names(apis), reg.handler)
    decreases |apis|
  {
    if apis != [] {
      var next := InitApp(reg, apis[0]);
      InitAppsAfterFirst(next, apis[1..]);
      assert Names(apis) == {apis[0].name} + Names(apis[1..]) by {
        assert apis == [apis[0]] + apis[1..];
      }
    }
  }

  /** After k >= 1 Api registrations on a fresh application the router is
      installed exactly once, bound to the first Api, and `api_set` holds all k
      names. */
  lemma {:induction false} RouterInstalledOnce(apis: seq<ApiInfo>)
    requires |apis| > 0
    ensures InitApps(NoApis, apis) == ApiRegistry(Names(apis), ApiRouter(apis[0]))
  {
    var first := InitApp(NoApis, apis[0]);
    InitAppsAfterFirst(first, apis[1..]);
    assert Names(apis) == {apis[0].name} + Names(apis[1..]) by {
      assert apis == [apis[0]] + apis[1..];
    }
  }

  /** `handle_error`'s three-way classification: an instance of the Api's
      class passes untouched; an HTTPException is rebuilt as
      `exception_cls(code, description)`; anything else becomes
      `exception_cls(500, str(e))`. */
  function Normalise(cls: ExcClass, e: Raised): (r: ExcInstance)
    ensures e.ApiRaised? && IsInstance(e.exc, cls) ==> r == e.exc
    ensures e.HttpRaised? ==> r == Construct(cls, PInt(e.code), PStr(e.description))
    ensures e.ApiRaised? && !IsInstance(e.exc, cls) ==> r == Construct(cls, PInt(500), PStr(Str(e.exc)))
    ensures e.OtherRaised? ==> r == Construct(cls, PInt(500), PStr(e.text))
    ensures r.cls == cls || (e.ApiRaised? && r == e.exc)
  {
    match e
    case ApiRaised(x) => if IsInstance(x, cls) then x else Construct(cls, PInt(500), PStr(Str(x)))
    case HttpRaised(code, description) => Construct(cls, PInt(code), PStr(description))
    case OtherRaised(_, text) => Construct(cls, PInt(500), PStr(text))
  }

  /** `Api.handle_error(e)`: the normalised exception's `get_response()`,
      which always succeeds. */
  function HandleError(cls: ExcClass, e: Raised): (r: Response)
    ensures r == Response(Json(ErrorBody(Normalise(cls, e))), ToValue(Normalise(cls, e).status),
                          VHeaders([("Content-type", "application/json")]))
  {
    GetResponse(Normalise(cls, e)).value
  }

  /** Where an error ends up once the user-exception slot has seen it. */
  datatype Routed =
    | ByApi(response: Response)            // answered by an Api's handle_error
    | ToUserExceptionHandler(error: Raised) // the application's own handle_user_exception
    | ToHandleException(error: Raised)      // passed by a router, unchanged, to app.handle_exception

  /** `Api._error_router(original_handler, e)`, with `original_handler`
      bound to `app.handle_exception`: errors of requests whose blueprint is
      this Api go to its `handle_error`; all others go to
      `app.handle_exception` untouched. */
  function ErrorRouter(api: ApiInfo, requestBlueprint: Option<string>, e: Raised): (r: Routed)
    ensures r.ByApi? <==> requestBlueprint == Some(api.name)
    ensures r.ByApi? ==> r.response == HandleError(api.exceptionCls, e)
    ensures !r.ByApi? ==> r == ToHandleException(e)
  {
    if requestBlueprint == Some(api.name) then ByApi(HandleError(api.exceptionCls, e)) else ToHandleException(e)
  }

  /** The application calling whatever sits in its `handle_user_exception`
      slot. */
  function HandleUserException(handler: UserExceptionHandler, requestBlueprint: Option<string>, e: Raised): (r: Routed)
    ensures handler.AppHandler? ==> r == ToUserExceptionHandler(e)
    ensures handler.ApiRouter? ==> !r.ToUserExceptionHandler?
    ensures handler.ApiRouter? ==> r == ErrorRouter(handler.api, requestBlueprint, e)
  {
    match handler
    case AppHandler => ToUserExceptionHandler(e)
    case ApiRouter(api) => ErrorRouter(api, requestBlueprint, e)
  }

  /** With several Apis on one application, only the first one's errors are
      normalised: an error raised under a later Api's (different) name goes
      past the router to `app.handle_exception`. */
  lemma OnlyFirstApiRoutes(apis: seq<ApiInfo>, k: nat, e: Raised)
    requires 0 < k < |apis| && apis[k].name != apis[0].name
    ensures HandleUserException(InitApps(NoApis, apis).handler, Some(apis[k].name), e) == ToHandleException(e)
    ensures HandleUserException(InitApps(NoApis, apis).handler, Some(apis[0].name), e)
            == ByApi(HandleError(apis[0].exceptionCls, e))
  {
    RouterInstalledOnce(apis);
  }

  /** Installing a router changes where every other error goes: before any
      Api, errors reach the application's own `handle_user_exception`; after
      one, errors of requests outside that Api skip it and reach
      `app.handle_exception`. */
  lemma RouterRedirectsOtherErrors(api: ApiInfo, requestBlueprint: Option<string>, e: Raised)
    requires requestBlueprint != Some(api.name)
    ensures HandleUserException(NoApis.handler, requestBlueprint, e) == ToUserExceptionHandler(e)
    ensures HandleUserException(InitApp(NoApis, api).handler, requestBlueprint, e) == ToHandleException(e)
  {
  }

  /** An Api whose class is the app's CustomException turns an HTTPException
      into a response whose status is the HTTP code and whose body carries the
      description twice: as `msg` and, because of the swapped forwarding in
      app/exception.py, as `code`. */
  lemma AppApiRebuildsHttpErrors(code: int, description: string)
    requires code != 0 && description != ""
    ensures Normalise(AppCustomClass, HttpRaised(code, description))
            == ExcInstance(AppCustomClass, PInt(code), PStr(description), PStr(description))
    ensures HandleError(AppCustomClass, HttpRaised(code, description)).status == VInt(code)
  {
  }

  /** A plain ApiException Api turns any non-HTTP error with a non-empty text
      into a 500 whose message is that text. */
  lemma BaseApiWrapsOtherErrors(kind: string, text: string)
    requires text != ""
    ensures Normalise(ApiExceptionClass, OtherRaised(kind, text)) == ExcInstance(ApiExceptionClass, PInt(500), PStr(text), PNone)
    ensures HandleError(ApiExceptionClass, OtherRaised(kind, text)).body == Json([(VStr("msg"), VStr(text))])
  {
  }

  /** An error whose text is empty (`raise KeyError()`) loses its 500: the
      call `ApiException(500, "")` has a falsy message, so neither argument is
      stored, and the response has no status and a null `msg`. */
  lemma BaseApiLosesStatusOnEmptyText(kind: string)
    ensures Normalise(ApiExceptionClass, OtherRaised(kind, "")) == ExcInstance(ApiExceptionClass, PNone, PNone, PNone)
    ensures HandleError(ApiExceptionClass, OtherRaised(kind, "")).status == VNone
    ensures HandleError(ApiExceptionClass, OtherRaised(kind, "")).body == Json([(VStr("msg"), VNone)])
  {
  }
}
