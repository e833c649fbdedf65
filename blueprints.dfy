/** Blueprints and Apis (pprika/blueprint.py, pprika/restful.py): a blueprint
    checks and rewrites each registration when it is made (URL prefix,
    endpoint namespace), queues it as a command, and runs the queue against an
    application when the application registers it. An Api is a blueprint whose
    queue starts with its own error-router installation. */
module Blueprints {
  import opened Common
  import opened Exceptions
  import opened ErrorRouting
  import opened Registry

  /** The URL prefix a blueprint is created with: the given one, else
      `"/" + name`. */
  function DefaultPrefix(name: string, urlPrefix: Option<string>): (r: string)
    ensures urlPrefix.Some? ==> r == urlPrefix.value
    ensures urlPrefix.None? ==> |r| == |name| + 1 && r[0] == '/' && r[1..] == name
  {
    if urlPrefix.Some? then urlPrefix.value else "/" + name
  }

  /** `"/".join((prefix.rstrip("/"), path.lstrip("/")))`. */
  function JoinPath(prefix: string, path: string): (r: string)
    ensures |r| == |TrimRight(prefix, '/')| + 1 + |TrimLeft(path, '/')|
  {
    TrimRight(prefix, '/') + "/" + TrimLeft(path, '/')
  }

  /** Exactly one slash separates the prefix from the path: the joined path is
      the prefix without its trailing slashes, one slash, and the path without
      its leading slashes, and neither neighbour of that slash is a slash. */
  lemma JoinPathOneSlash(prefix: string, path: string)
    ensures var k := |TrimRight(prefix, '/')|;
            var r := JoinPath(prefix, path);
            && r[..k] <= prefix
            && r[k] == '/'
            && (k == 0 || r[k - 1] != '/')
            && (k + 1 == |r| || r[k + 1] != '/')
            && r[k + 1..] == TrimLeft(path, '/')
  {
    var p := TrimRight(prefix, '/');
    var q := TrimLeft(path, '/');
    var r := JoinPath(prefix, path);
    assert r == p + "/" + q;
    assert r[..|p|] == p;
    assert r[|p| + 1..] == q;
  }

  /** Trailing slashes added to a string are stripped again. */
  lemma {:induction false} TrimRightExtraSlashes(p: string, m: nat)
    ensures TrimRight(p + seq(m, _ => '/'), '/') == TrimRight(p, '/')
    decreases m
  {
    if m == 0 {
      assert p + seq(0, _ => '/') == p;
    } else {
      var longer := p + seq(m, _ => '/');
      assert longer[|longer| - 1] == '/';
      assert longer[..|longer| - 1] == p + seq(m - 1, _ => '/');
      TrimRightExtraSlashes(p, m - 1);
    }
  }

  /** Leading slashes added to a string are stripped again. */
  lemma {:induction false} TrimLeftExtraSlashes(q: string, n: nat)
    ensures TrimLeft(seq(n, _ => '/') + q, '/') == TrimLeft(q, '/')
    decreases n
  {
    if n == 0 {
      assert seq(0, _ => '/') + q == q;
    } else {
      var longer := seq(n, _ => '/') + q;
      assert longer[0] == '/';
      assert longer[1..] == seq(n - 1, _ => '/') + q;
      TrimLeftExtraSlashes(q, n - 1);
    }
  }

  /** Slashes at the joint do not matter: extra trailing slashes on the prefix
      or extra leading slashes on the path give the same URL. */
  lemma JoinPathIgnoresJointSlashes(prefix: string, path: string, m: nat, n: nat)
    ensures JoinPath(prefix + seq(m, _ => '/'), seq(n, _ => '/') + path) == JoinPath(prefix, path)
  {
    TrimRightExtraSlashes(prefix, m);
    TrimLeftExtraSlashes(path, n);
  }

  /** A blueprint's endpoint: its name, a dot, and the local endpoint. */
  function ScopedEndpoint(name: string, local: string): (r: string)
    ensures |r| == |name| + 1 + |local| && r[..|name|] == name && r[|name|] == '.' && r[|name| + 1..] == local
  {
    name + "." + local
  }

  /** In a scoped endpoint with a dot-free local part, the dot after the
      name is the last dot. */
  lemma ScopedEndpointLastDot(name: string, local: string)
    requires !Contains(local, ".")
    ensures var e := ScopedEndpoint(name, local);
            e[|name|] == '.' && forall i :: |name| < i < |e| ==> e[i] != '.'
  {
    var e := ScopedEndpoint(name, local);
    forall i | |name| < i < |e| ensures e[i] != '.' {
      var j := i - |name| - 1;
      assert !OccursAt(local, ".", j);
      assert local[j..j + 1] == [local[j]];
      assert e[i] == local[j];
    }
  }

  /** With dot-free local endpoints, the last dot of a scoped endpoint marks
      where the blueprint name ends: different blueprints (however they are
      named) never produce the same endpoint, and the local endpoint is
      recovered. */
  lemma ScopedEndpointInjective(n1: string, l1: string, n2: string, l2: string)
    requires !Contains(l1, ".") && !Contains(l2, ".")
    requires ScopedEndpoint(n1, l1) == ScopedEndpoint(n2, l2)
    ensures n1 == n2 && l1 == l2
  {
    var e := ScopedEndpoint(n1, l1);
    ScopedEndpointLastDot(n1, l1);
    ScopedEndpointLastDot(n2, l2);
    assert |n1| == |n2|;
    assert n1 == e[..|n1|] == n2;
  }

  /** The checks `add_url_rule` makes on a blueprint, in the order it makes
      them, and the command it queues when they pass: the view function's name
      must be dot-free, a non-empty endpoint must be dot-free, and without an
      endpoint there must be a view function; the queued rule has the joined
      path and the scoped endpoint. */
  function RuleCommand(name: string, urlPrefix: string, path: string, endpoint: Option<string>,
                       viewFunc: Option<Func>, methods: MethodsArg): (r: Result<Command, SetupError>)
    ensures viewFunc.Some? && Contains(viewFunc.value.name, ".") ==> r == Err(DottedFuncName(viewFunc.value.name))
    ensures r.Err? && r.error.DottedEndpoint? ==> endpoint == Some(r.error.endpoint) && Contains(r.error.endpoint, ".")
    ensures (viewFunc.None? || !Contains(viewFunc.value.name, ".")) && endpoint.Some? && Contains(endpoint.value, ".") ==>
      r == Err(DottedEndpoint(endpoint.value))
    ensures r == Err(MissingViewFunc) <==> endpoint.None? && viewFunc.None?
    ensures r.Ok? <==>
      && (viewFunc.Some? ==> !Contains(viewFunc.value.name, "."))
      && (endpoint.Some? ==> !Contains(endpoint.value, "."))
      && (endpoint.Some? || viewFunc.Some?)
    ensures r.Ok? ==>
      && r.value.AddRule?
      && r.value.path == JoinPath(urlPrefix, path)
      && r.value.endpoint == ScopedEndpoint(name, DefaultEndpoint(endpoint, viewFunc).value)
      && !Contains(DefaultEndpoint(endpoint, viewFunc).value, ".")
      && r.value.viewFunc == viewFunc && r.value.methods == methods
  {
    if viewFunc.Some? && Contains(viewFunc.value.name, ".") then Err(DottedFuncName(viewFunc.value.name))
    else if endpoint.Some? && endpoint.value != "" && Contains(endpoint.value, ".") then Err(DottedEndpoint(endpoint.value))
    else if endpoint.None? && viewFunc.None? then Err(MissingViewFunc)
    else
      var local := if endpoint.Some? then endpoint.value else viewFunc.value.name;
      Ok(AddRule(JoinPath(urlPrefix, path), ScopedEndpoint(name, local), viewFunc, methods))
  }

  /** The exception class an Api uses: the one given, else ApiException. */
  function ApiClass(exceptionCls: Option<ExcClass>): (r: ExcClass)
    ensures exceptionCls.Some? ==> r == exceptionCls.value
    ensures exceptionCls.None? ==> r == ApiExceptionClass
  {
    if exceptionCls.Some? then exceptionCls.value else ApiExceptionClass
  }

  class Blueprint {
    const name: string
    const urlPrefix: string
    /** The exception class of an Api; None for a plain blueprint. */
    const exceptionCls: Option<ExcClass>
    /** The registrations waiting for an application, in the order made. */
    var deferred: seq<Command>

    /** `Blueprint(name, url_prefix)`. */
    constructor (name: string, urlPrefix: Option<string>)
      ensures this.name == name && this.urlPrefix == DefaultPrefix(name, urlPrefix)
      ensures exceptionCls.None? && deferred == []
    {
      this.name := name;
      this.urlPrefix := DefaultPrefix(name, urlPrefix);
      this.exceptionCls := None;
      deferred := [];
    }

    /** `Api(name, url_prefix, exception_cls)`: a blueprint whose first queued
        command installs its error router. */
    constructor Api(name: string, urlPrefix: Option<string>, exceptionCls: Option<ExcClass>)
      ensures this.name == name && this.urlPrefix == DefaultPrefix(name, urlPrefix)
      ensures this.exceptionCls == Some(ApiClass(exceptionCls))
      ensures deferred == [InitApi(ApiInfo(name, ApiClass(exceptionCls)))]
    {
      this.name := name;
      this.urlPrefix := DefaultPrefix(name, urlPrefix);
      this.exceptionCls := Some(ApiClass(exceptionCls));
      deferred := [InitApi(ApiInfo(name, ApiClass(exceptionCls)))];
    }

    /** `add_url_rule`: check now, register later. A failed check queues
        nothing. */
    method AddUrlRule(path: string, endpoint: Option<string>, viewFunc: Option<Func>, methods: MethodsArg) returns (o: Outcome)
      modifies this`deferred
      ensures RuleCommand(name, urlPrefix, path, endpoint, viewFunc, methods).Err? ==>
        o == Failed(RuleCommand(name, urlPrefix, path, endpoint, viewFunc, methods).error) && deferred == old(deferred)
      ensures RuleCommand(name, urlPrefix, path, endpoint, viewFunc, methods).Ok? ==>
        o == Done && deferred == old(deferred) + [RuleCommand(name, urlPrefix, path, endpoint, viewFunc, methods).value]
    {
      var c := RuleCommand(name, urlPrefix, path, endpoint, viewFunc, methods);
      if c.Err? {
        return Failed(c.error);
      }
      deferred := deferred + [c.value];
      o := Done;
    }

    /** `@bp.route(path, endpoint=..., methods=...)` applied to `func`. */
    method Route(path: string, endpoint: Option<string>, methods: MethodsArg, func: Func) returns (r: Result<Func, SetupError>)
      modifies this`deferred
      ensures RuleCommand(name, urlPrefix, path, endpoint, Some(func), methods).Err? ==>
        r == Err(RuleCommand(name, urlPrefix, path, endpoint, Some(func), methods).error) && deferred == old(deferred)
      ensures RuleCommand(name, urlPrefix, path, endpoint, Some(func), methods).Ok? ==>
        r == Ok(func) && deferred == old(deferred) + [RuleCommand(name, urlPrefix, path, endpoint, Some(func), methods).value]
    {
      var o := AddUrlRule(path, endpoint, Some(func), methods);
      if o.Failed? {
        return Err(o.error);
      }
      r := Ok(func);
    }

    /** `register_error_handler`: queues a handler scoped to this blueprint. */
    method RegisterErrorHandler(key: ErrorKey, handler: Func)
      modifies this`deferred
      ensures deferred == old(deferred) + [ScopedErrorHandler(key, handler, name)]
    {
      deferred := deferred + [ScopedErrorHandler(key, handler, name)];
    }

    /** `@bp.error_handler(key)` applied to `handler`. */
    method ErrorHandler(key: ErrorKey, handler: Func) returns (r: Func)
      modifies this`deferred
      ensures r == handler
      ensures deferred == old(deferred) + [ScopedErrorHandler(key, handler, name)]
    {
      RegisterErrorHandler(key, handler);
      r := handler;
    }

    /** `@bp.app_error_handler(key)` applied to `handler`: queues an app-wide
        handler. */
    method AppErrorHandler(key: ErrorKey, handler: Func) returns (r: Func)
      modifies this`deferred
      ensures r == handler
      ensures deferred == old(deferred) + [Registry.AppErrorHandler(key, handler)]
    {
      deferred := deferred + [Registry.AppErrorHandler(key, handler)];
      r := handler;
    }

    /** `register(app)`: run every queued command against `app`, in order,
        stopping at the first that fails. */
    method Register(app: App) returns (o: Outcome)
      modifies app`urlMap, app`viewFunctions, app`apiSet, app`userExceptionHandler
      ensures app.State() == Replay(old(app.State()), deferred).state
      ensures o == Replay(old(app.State()), deferred).outcome
    {
      var i := 0;
      o := Done;
      while i < |deferred|
        invariant 0 <= i <= |deferred|
        invariant Replay(old(app.State()), deferred[..i]).outcome.Done?
        invariant app.State() == Replay(old(app.State()), deferred[..i]).state
        invariant o == Done
      {
        ReplayOneMore(old(app.State()), deferred, i);
        o := app.Apply(deferred[i]);
        if o.Failed? {
          assert deferred == deferred[..i + 1] + deferred[i + 1..];
          ReplayAppend(old(app.State()), deferred[..i + 1], deferred[i + 1..]);
          return;
        }
        i := i + 1;
      }
      assert deferred[..i] == deferred;
    }
  }

  /** `app.register_blueprint(bp)`: claim the blueprint's name, then replay
      its queue. A name held by another blueprint stops the registration
      before anything is replayed. */
  method RegisterBlueprint(app: App, bp: Blueprint) returns (o: Outcome)
    modifies app`blueprints, app`urlMap, app`viewFunctions, app`apiSet, app`userExceptionHandler
    ensures ClaimBlueprintName(old(app.blueprints), bp.name, bp).None? ==>
      && o == Failed(BlueprintNameTaken(bp.name))
      && app.blueprints == old(app.blueprints)
      && app.State() == old(app.State())
    ensures ClaimBlueprintName(old(app.blueprints), bp.name, bp).Some? ==>
      && app.blueprints == ClaimBlueprintName(old(app.blueprints), bp.name, bp).value
      && app.State() == Replay(old(app.State()), bp.deferred).state
      && o == Replay(old(app.State()), bp.deferred).outcome
  {
    o := app.ClaimName(bp.name, bp);
    if o.Failed? {
      return;
    }
    o := bp.Register(app);
  }
}
