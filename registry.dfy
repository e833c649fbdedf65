/** The application object (pprika/app.py): its URL rule list, the
    endpoint-to-view table, the blueprint names it has seen, the request entry
    point, and the replay of a blueprint's queued registration commands.

    The pure functions below say what one registration or one command does to
    the application's state; the `App` class holds that state in fields and its
    methods are proved to act as those functions say. */
module Registry {
  import opened Common
  import opened Responses
  import opened Exceptions
  import opened ErrorRouting

  /** A view function or error handler: an identity (compared by equality) and
      its `__name__`. */
  datatype Func = Func(id: nat, name: string)

  /** The `methods` option: absent, one bare string, or a list of names. */
  datatype MethodsArg = NoMethods | MethodName(name: string) | MethodNames(names: seq<string>)

  /** One entry of `url_map`. */
  datatype Rule = Rule(path: string, methods: set<string>, endpoint: string)

  /** The AssertionErrors raised while an application is being set up, and the
      AttributeError of an app-wide error-handler command (the application
      has no `error_handler` method). */
  datatype SetupError =
    | MissingViewFunc
    | EndpointTaken(endpoint: string)
    | DottedFuncName(name: string)
    | DottedEndpoint(endpoint: string)
    | BlueprintNameTaken(name: string)
    | NoAppErrorHandler

  datatype Outcome = Done | Failed(error: SetupError)

  /** What an error handler is registered for. */
  datatype ErrorKey = StatusCode(code: int) | ExceptionType(qualName: string)

  /** A registration queued by a blueprint, to be run against an application
      later. */
  datatype Command =
    | AddRule(path: string, endpoint: string, viewFunc: Option<Func>, methods: MethodsArg)
    | ScopedErrorHandler(key: ErrorKey, handler: Func, scope: string)
    | AppErrorHandler(key: ErrorKey, handler: Func)
    | InitApi(api: ApiInfo)

  /** `url_map` and `view_functions`. */
  datatype RuleTable = RuleTable(urlMap: seq<Rule>, viewFunctions: map<string, Func>)

  /** Everything a command can change. */
  datatype AppState = AppState(table: RuleTable, apis: ApiRegistry)

  // ---- add_url_rule ------------------------------------------------------

  /** The endpoint of a registration: the given one, else the view function's
      name; with neither there is none (the assertion fails). */
  function DefaultEndpoint(endpoint: Option<string>, viewFunc: Option<Func>): (r: Option<string>)
    ensures r.None? <==> endpoint.None? && viewFunc.None?
    ensures endpoint.Some? ==> r == endpoint
    ensures endpoint.None? && viewFunc.Some? ==> r == Some(viewFunc.value.name)
  {
    if endpoint.Some? then endpoint
    else if viewFunc.Some? then Some(viewFunc.value.name)
    else None
  }

  /** `set(item.upper() for item in (methods or ("GET",)))`, a bare string
      being wrapped first. */
  function NormaliseMethods(m: MethodsArg): (r: set<string>)
    ensures r != {}
    ensures forall x :: x in r ==> IsUpper(x)
    ensures m == NoMethods || m == MethodName("") || m == MethodNames([]) ==> r == {"GET"}
    ensures m.MethodName? && m.name != "" ==> r == {Upper(m.name)}
    ensures m.MethodNames? && m.names != [] ==>
      (forall y :: y in m.names ==> Upper(y) in r) && (forall x :: x in r ==> exists y :: y in m.names && Upper(y) == x)
  {
    match m
    case NoMethods => {"GET"}
    case MethodName(s) =>
      if s == "" then {"GET"}
      else
        UpperIsUpper(s);
        {Upper(s)}
    case MethodNames(xs) =>
      if xs == [] then {"GET"}
      else
        var r := set y | y in xs :: Upper(y);
        assert xs[0] in xs;
        assert Upper(xs[0]) in r;
        forall x | x in r ensures IsUpper(x) {
          var y :| y in xs && Upper(y) == x;
          UpperIsUpper(y);
        }
        r
  }

  /** Spellings that differ only in case normalise to the same method. */
  lemma MethodCaseVariantsCollapse(a: string, b: string)
    requires |a| == |b| && a != ""
    requires forall i :: 0 <= i < |a| ==> UpperChar(a[i]) == UpperChar(b[i])
    ensures NormaliseMethods(MethodNames([a, b])) == NormaliseMethods(MethodName(a))
  {
    UpperIgnoresCase(a, b);
    var r := NormaliseMethods(MethodNames([a, b]));
    assert r == {Upper(a)} by {
      forall x | x in r ensures x == Upper(a) {
        var y :| y in [a, b] && Upper(y) == x;
      }
      assert Upper(a) in r by { assert a in [a, b]; }
    }
  }

  /** Binding an endpoint to a view function: refused when the endpoint is
      already bound to a different function; otherwise the endpoint maps to the
      function and every other entry is kept. */
  function BindView(views: map<string, Func>, endpoint: string, f: Func): (r: Option<map<string, Func>>)
    ensures r.None? <==> endpoint in views && views[endpoint] != f
    ensures r.Some? ==> r.value.Keys == views.Keys + {endpoint} && r.value[endpoint] == f
    ensures r.Some? ==> forall e :: e in views && e != endpoint ==> r.value[e] == views[e]
  {
    if endpoint in views && views[endpoint] != f then None else Some(views[endpoint := f])
  }

  /** Re-binding an endpoint to the function it already has changes nothing. */
  lemma BindSameIsNoOp(views: map<string, Func>, endpoint: string, f: Func)
    requires BindView(views, endpoint, f).Some?
    ensures BindView(BindView(views, endpoint, f).value, endpoint, f) == BindView(views, endpoint, f)
  {
    var m := views[endpoint := f];
    assert m[endpoint := f] == m;
  }

  /** `add_url_rule(path, endpoint, view_func, methods=...)` on the rule table.
      The rule is appended before the conflict check, so a call refused for an
      endpoint conflict still leaves its rule in `url_map`. */
  function WithRule(t: RuleTable, path: string, endpoint: Option<string>, viewFunc: Option<Func>, methods: MethodsArg): (r: (RuleTable, Outcome))
    ensures DefaultEndpoint(endpoint, viewFunc).None? ==> r == (t, Failed(MissingViewFunc))
    ensures DefaultEndpoint(endpoint, viewFunc).Some? ==>
      r.0.urlMap == t.urlMap + [Rule(path, NormaliseMethods(methods), DefaultEndpoint(endpoint, viewFunc).value)]
    ensures r.1.Failed? || viewFunc.None? ==> r.0.viewFunctions == t.viewFunctions
    ensures DefaultEndpoint(endpoint, viewFunc).Some? ==>
      (r.1 == Failed(EndpointTaken(DefaultEndpoint(endpoint, viewFunc).value)) <==>
      viewFunc.Some? && BindView(t.viewFunctions, DefaultEndpoint(endpoint, viewFunc).value, viewFunc.value).None?)
    ensures r.1.Done? && viewFunc.Some? ==>
      r.0.viewFunctions == BindView(t.viewFunctions, DefaultEndpoint(endpoint, viewFunc).value, viewFunc.value).value
    ensures r.1.Failed? ==> r.1.error == MissingViewFunc || r.1.error.EndpointTaken?
    ensures r.1 == Failed(MissingViewFunc) <==> DefaultEndpoint(endpoint, viewFunc).None?
    ensures r.1.Done? <==>
      && DefaultEndpoint(endpoint, viewFunc).Some?
      && (viewFunc.None? || BindView(t.viewFunctions, DefaultEndpoint(endpoint, viewFunc).value, viewFunc.value).Some?)
  {
    match DefaultEndpoint(endpoint, viewFunc)
    case None => (t, Failed(MissingViewFunc))
    case Some(ep) =>
      var urlMap := t.urlMap + [Rule(path, NormaliseMethods(methods), ep)];
      if viewFunc.None? then (RuleTable(urlMap, t.viewFunctions), Done)
      else
        match BindView(t.viewFunctions, ep, viewFunc.value)
        case None => (RuleTable(urlMap, t.viewFunctions), Failed(EndpointTaken(ep)))
        case Some(views) => (RuleTable(urlMap, views), Done)
  }

  /** Every bound endpoint has a rule in `url_map`. */
  predicate EveryViewHasRule(t: RuleTable)
  {
    forall e :: e in t.viewFunctions ==> exists i :: 0 <= i < |t.urlMap| && t.urlMap[i].endpoint == e
  }

  /** Registration keeps every bound endpoint reachable by some rule, because
      the rule is appended before any binding. */
  lemma WithRuleKeepsViewsRouted(t: RuleTable, path: string, endpoint: Option<string>, viewFunc: Option<Func>, methods: MethodsArg)
    requires EveryViewHasRule(t)
    ensures EveryViewHasRule(WithRule(t, path, endpoint, viewFunc, methods).0)
  {
    var r := WithRule(t, path, endpoint, viewFunc, methods).0;
    forall e | e in r.viewFunctions
      ensures exists i :: 0 <= i < |r.urlMap| && r.urlMap[i].endpoint == e
    {
      if e in t.viewFunctions {
        var i :| 0 <= i < |t.urlMap| && t.urlMap[i].endpoint == e;
        assert r.urlMap[i] == t.urlMap[i];
      } else {
        assert r.urlMap[|r.urlMap| - 1].endpoint == e;
      }
    }
  }

  /** One function under several endpoints (or several paths) is accepted;
      the second registration with the same endpoint and function leaves the
      view table as the first left it and adds one more rule. */
  lemma SamePairTwice(t: RuleTable, path1: string, path2: string, endpoint: Option<string>, f: Func, methods: MethodsArg)
    requires WithRule(t, path1, endpoint, Some(f), methods).1.Done?
    ensures var t1 := WithRule(t, path1, endpoint, Some(f), methods).0;
            var r2 := WithRule(t1, path2, endpoint, Some(f), methods);
            r2.1.Done? && r2.0.viewFunctions == t1.viewFunctions && |r2.0.urlMap| == |t.urlMap| + 2
  {
  }

  // ---- register_blueprint ------------------------------------------------

  /** The name check of `register_blueprint`: a new name is recorded; the same
      object under its name again is accepted; a different object under a
      taken name is refused. */
  function ClaimBlueprintName(blueprints: map<string, object>, name: string, bp: object): (r: Option<map<string, object>>)
    ensures r.None? <==> name in blueprints && blueprints[name] != bp
    ensures r.Some? ==> r.value == blueprints[name := bp]
    ensures r.Some? && name in blueprints ==> r.value == blueprints
  {
    if name in blueprints then
      if blueprints[name] == bp then Some(blueprints) else None
    else Some(blueprints[name := bp])
  }

  // ---- commands ----------------------------------------------------------

  /** What one queued command does when run against an application:
      a rule goes through `add_url_rule`; a scoped error handler reaches
      `register_error_handler`, which does nothing; an app-wide error handler
      looks for an `error_handler` method the application does not have; an
      Api initialisation runs `_init_app`. */
  function Step(st: AppState, c: Command): (r: (AppState, Outcome))
    ensures c.AddRule? ==> r.0.apis == st.apis
    ensures c.AddRule? ==> (r.0.table, r.1) == WithRule(st.table, c.path, Some(c.endpoint), c.viewFunc, c.methods)
    ensures c.ScopedErrorHandler? ==> r == (st, Done)
    ensures c.AppErrorHandler? ==> r == (st, Failed(NoAppErrorHandler))
    ensures c.InitApi? ==> r == (AppState(st.table, InitApp(st.apis, c.api)), Done)
  {
    match c
    case AddRule(path, endpoint, viewFunc, methods) =>
      var (t, o) := WithRule(st.table, path, Some(endpoint), viewFunc, methods);
      (AppState(t, st.apis), o)
    case ScopedErrorHandler(_, _, _) => (st, Done)
    case AppErrorHandler(_, _) => (st, Failed(NoAppErrorHandler))
    case InitApi(api) => (AppState(st.table, InitApp(st.apis, api)), Done)
  }

  /** Where replaying a command list stopped: the state reached, the outcome,
      and how many commands were started (a failing command counts: its rule
      may already be in place). */
  datatype Replayed = Replayed(state: AppState, outcome: Outcome, started: nat)

  /** Running commands in order, stopping at the first failure. */
  function Replay(st: AppState, cmds: seq<Command>): (r: Replayed)
    ensures r.started <= |cmds|
    ensures r.outcome.Done? ==> r.started == |cmds|
    ensures r.outcome.Failed? ==> r.started >= 1
    decreases |cmds|
  {
    if cmds == [] then Replayed(st, Done, 0)
    else
      var (s1, o1) := Step(st, cmds[0]);
      if o1.Failed? then Replayed(s1, o1, 1)
      else
        var rest := Replay(s1, cmds[1..]);
        Replayed(rest.state, rest.outcome, rest.started + 1)
  }

  /** A replay that fails stops at the failing command: every command before
      it succeeded, and the final state and outcome are that command's. */
  lemma {:induction false} ReplayStopsAtFailure(st: AppState, cmds: seq<Command>)
    requires Replay(st, cmds).outcome.Failed?
    ensures var r := Replay(st, cmds);
            var before := Replay(st, cmds[..r.started - 1]);
            before.outcome.Done? && Step(before.state, cmds[r.started - 1]) == (r.state, r.outcome)
    decreases |cmds|
  {
    var r := Replay(st, cmds);
    var (s1, o1) := Step(st, cmds[0]);
    if o1.Failed? {
      assert cmds[..0] == [];
    } else {
      ReplayStopsAtFailure(s1, cmds[1..]);
      var k := r.started - 1;
      assert cmds[..k] == [cmds[0]] + cmds[1..][..k - 1];
      ReplayAppend(st, [cmds[0]], cmds[1..][..k - 1]);
      assert [cmds[0]][1..] == [];
      assert cmds[k] == cmds[1..][k - 1];
    }
  }

  /** Replaying `a + b` is replaying `a`, then (if that did not fail) `b` from
      where `a` left off. */
  lemma {:induction false} ReplayAppend(st: AppState, a: seq<Command>, b: seq<Command>)
    ensures Replay(st, a).outcome.Failed? ==> Replay(st, a + b) == Replay(st, a)
    ensures Replay(st, a).outcome.Done? ==>
      var rb := Replay(Replay(st, a).state, b);
      Replay(st, a + b) == Replayed(rb.state, rb.outcome, |a| + rb.started)
    decreases |a|
  {
    if a == [] {
      assert a + b == b;
    } else {
      assert (a + b)[0] == a[0];
      assert (a + b)[1..] == a[1..] + b;
      var (s1, o1) := Step(st, a[0]);
      if o1.Done? {
        ReplayAppend(s1, a[1..], b);
      }
    }
  }

  /** One more command on the end of a replay that has not failed. */
  lemma ReplayOneMore(st: AppState, cmds: seq<Command>, i: nat)
    requires i < |cmds| && Replay(st, cmds[..i]).outcome.Done?
    ensures Replay(st, cmds[..i + 1]) ==
      var (s, o) := Step(Replay(st, cmds[..i]).state, cmds[i]);
      Replayed(s, o, i + 1)
  {
    assert cmds[..i + 1] == cmds[..i] + [cmds[i]];
    ReplayAppend(st, cmds[..i], [cmds[i]]);
    var (s, o) := Step(Replay(st, cmds[..i]).state, cmds[i]);
    assert [cmds[i]][1..] == [];
  }

  /** The rule a command adds to `url_map`: one for a rule command, none
      otherwise. */
  function RuleAdded(c: Command): seq<Rule>
  {
    if c.AddRule? then [Rule(c.path, NormaliseMethods(c.methods), c.endpoint)] else []
  }

  /** The rules a command list adds to `url_map`, in queue order. */
  function RulesOf(cmds: seq<Command>): (r: seq<Rule>)
    ensures |r| <= |cmds|
    decreases |cmds|
  {
    if cmds == [] then [] else RuleAdded(cmds[0]) + RulesOf(cmds[1..])
  }

  /** A replay that succeeds appends the queued rules to `url_map`, in queue
      order, and removes none. */
  lemma {:induction false} ReplayAppendsRules(st: AppState, cmds: seq<Command>)
    requires Replay(st, cmds).outcome.Done?
    ensures Replay(st, cmds).state.table.urlMap == st.table.urlMap + RulesOf(cmds)
    decreases |cmds|
  {
    if cmds != [] {
      var s1 := Step(st, cmds[0]).0;
      StepAppendsRule(st, cmds[0]);
      ReplayCons(st, cmds);
      ReplayAppendsRules(s1, cmds[1..]);
      AppendRulesCons(st.table.urlMap, cmds);
    }
  }

  /** A command that succeeds appends its own rule, if any, to `url_map`. */
  lemma StepAppendsRule(st: AppState, c: Command)
    requires Step(st, c).1.Done?
    ensures Step(st, c).0.table.urlMap == st.table.urlMap + RuleAdded(c)
  {
    if !c.AddRule? {
      assert st.table.urlMap + [] == st.table.urlMap;
    }
  }

  /** `b` keeps every view binding and Api name of `a`. */
  predicate Extends(a: AppState, b: AppState)
  {
    && a.apis.apiSet <= b.apis.apiSet
    && (forall e :: e in a.table.viewFunctions ==>
          e in b.table.viewFunctions && b.table.viewFunctions[e] == a.table.viewFunctions[e])
  }

  /** A command whose effect is already in place in `st`: its function is
      bound to its endpoint, its Api is known; a scoped handler is always in
      place, an app-wide handler never. */
  predicate CommandSettled(st: AppState, c: Command)
  {
    match c
    case AddRule(_, ep, vf, _) =>
      vf.Some? ==> ep in st.table.viewFunctions && st.table.viewFunctions[ep] == vf.value
    case ScopedErrorHandler(_, _, _) => true
    case AppErrorHandler(_, _) => false
    case InitApi(api) => api.name in st.apis.apiSet
  }

  predicate Settled(st: AppState, cmds: seq<Command>)
  {
    forall i :: 0 <= i < |cmds| ==> CommandSettled(st, cmds[i])
  }

  /** A successful replay only adds bindings and Api names. */
  lemma {:induction false} ReplayExtends(st: AppState, cmds: seq<Command>)
    requires Replay(st, cmds).outcome.Done?
    ensures Extends(st, Replay(st, cmds).state)
    decreases |cmds|
  {
    if cmds != [] {
      var (s1, o1) := Step(st, cmds[0]);
      ReplayExtends(s1, cmds[1..]);
    }
  }

  /** After a successful replay every command of the list is settled. */
  lemma {:induction false} ReplaySettles(st: AppState, cmds: seq<Command>)
    requires Replay(st, cmds).outcome.Done?
    ensures Settled(Replay(st, cmds).state, cmds)
    decreases |cmds|
  {
    if cmds != [] {
      var (s1, o1) := Step(st, cmds[0]);
      var fin := Replay(st, cmds).state;
      ReplaySettles(s1, cmds[1..]);
      ReplayExtends(s1, cmds[1..]);
      assert CommandSettled(s1, cmds[0]);
      assert CommandSettled(fin, cmds[0]);
      forall i | 0 <= i < |cmds| ensures CommandSettled(fin, cmds[i]) {
        if i > 0 {
          assert cmds[i] == cmds[1..][i - 1];
        }
      }
    }
  }

  /** A settled command succeeds and only appends its rule, if any. */
  lemma StepSettled(st: AppState, c: Command)
    requires CommandSettled(st, c)
    ensures Step(st, c) == (AppState(RuleTable(st.table.urlMap + RuleAdded(c), st.table.viewFunctions), st.apis), Done)
  {
    if c.AddRule? {
      if c.viewFunc.Some? {
        var views := st.table.viewFunctions;
        assert views[c.endpoint := c.viewFunc.value] == views;
      }
    } else {
      assert st.table.urlMap + [] == st.table.urlMap;
      if c.InitApi? {
        assert st.apis.apiSet + {c.api.name} == st.apis.apiSet;
      }
    }
  }

  /** One unfolding of `Replay` past a command that succeeds. */
  lemma ReplayCons(st: AppState, cmds: seq<Command>)
    requires cmds != [] && Step(st, cmds[0]).1.Done?
    ensures var rest := Replay(Step(st, cmds[0]).0, cmds[1..]);
            Replay(st, cmds) == Replayed(rest.state, rest.outcome, rest.started + 1)
  {
  }

  /** Whether a command is settled depends only on the view table and the
      Api names. */
  lemma SettledByBindings(a: AppState, b: AppState, cmds: seq<Command>)
    requires a.table.viewFunctions == b.table.viewFunctions && a.apis.apiSet == b.apis.apiSet
    requires Settled(a, cmds)
    ensures Settled(b, cmds)
  {
    forall i | 0 <= i < |cmds| ensures CommandSettled(b, cmds[i]) {
      assert CommandSettled(a, cmds[i]);
    }
  }

  /** Settledness of a list is settledness of its head and of its tail. */
  lemma SettledCons(st: AppState, cmds: seq<Command>)
    requires cmds != [] && Settled(st, cmds)
    ensures CommandSettled(st, cmds[0]) && Settled(st, cmds[1..])
  {
    forall i | 0 <= i < |cmds| - 1 ensures CommandSettled(st, cmds[1..][i]) {
      assert cmds[1..][i] == cmds[i + 1];
    }
  }

  /** Appending the queued rules of a list is appending its head's rule, then
      those of its tail. */
  lemma AppendRulesCons(urlMap: seq<Rule>, cmds: seq<Command>)
    requires cmds != []
    ensures urlMap + RuleAdded(cmds[0]) + RulesOf(cmds[1..]) == urlMap + RulesOf(cmds)
  {
    var head, tail := RuleAdded(cmds[0]), RulesOf(cmds[1..]);
    assert RulesOf(cmds) == head + tail;
    assert urlMap + head + tail == urlMap + (head + tail);
  }

  /** Replaying settled commands succeeds and changes nothing but `url_map`,
      which gains the queued rules once more. */
  lemma {:induction false} ReplaySettled(st: AppState, cmds: seq<Command>)
    requires Settled(st, cmds)
    ensures Replay(st, cmds) ==
      Replayed(AppState(RuleTable(st.table.urlMap + RulesOf(cmds), st.table.viewFunctions), st.apis), Done, |cmds|)
    decreases |cmds|
  {
    if cmds != [] {
      SettledCons(st, cmds);
      StepSettled(st, cmds[0]);
      var s1 := AppState(RuleTable(st.table.urlMap + RuleAdded(cmds[0]), st.table.viewFunctions), st.apis);
      SettledByBindings(st, s1, cmds[1..]);
      ReplaySettled(s1, cmds[1..]);
      ReplayCons(st, cmds);
      AppendRulesCons(st.table.urlMap, cmds);
    }
  }

  /** Running the same command list a second time (as registering the same
      blueprint again does) succeeds whenever the first run did; it leaves the
      view table and the Api state as they were and duplicates the rules. */
  lemma ReplayTwice(st: AppState, cmds: seq<Command>)
    requires Replay(st, cmds).outcome.Done?
    ensures var s1 := Replay(st, cmds).state;
            var r2 := Replay(s1, cmds);
            && r2.outcome.Done?
            && r2.state.table.viewFunctions == s1.table.viewFunctions
            && r2.state.apis == s1.apis
            && r2.state.table.urlMap == st.table.urlMap + RulesOf(cmds) + RulesOf(cmds)
  {
    ReplaySettles(st, cmds);
    ReplayAppendsRules(st, cmds);
    ReplaySettled(Replay(st, cmds).state, cmds);
  }

  // ---- dispatch ----------------------------------------------------------

  /** The router's answer for one request: an endpoint and the captured
      arguments. */
  datatype Match = Match(endpoint: string, args: map<string, Value>)

  /** `view_functions[endpoint]`, a KeyError when the endpoint has a rule but
      no function. */
  function LookupView(views: map<string, Func>, endpoint: string): (r: Result<Func, Raised>)
    ensures r.Ok? <==> endpoint in views
    ensures r.Ok? ==> r.value == views[endpoint]
    ensures r.Err? ==> r.error == OtherRaised("KeyError", PyStrRepr(endpoint))
  {
    if endpoint in views then Ok(views[endpoint]) else Err(OtherRaised("KeyError", PyStrRepr(endpoint)))
  }

  /** The message of the TypeError for a tuple of the wrong length. */
  const TupleArityMessage := "视图函数返回值若为tuple至少要有响应体body，可选status与headers，如(body, status, headers)"

  /** The message prefix of the TypeError for an illegal body type. */
  const IllegalBodyPrefix := "视图函数返回的响应体类型非法:"

  /** What `make_response` raises, as a raised error: the two TypeErrors
      with their messages (the illegal type shown as `<class '...'>`), the
      JSON encoder's TypeError, and the header conversion's error. */
  /** The text of the error werkzeug's `Headers` raises for headers it
      cannot take; only that it is not empty matters to the model. */
  const BadHeadersText := "invalid headers"

  function ResponseErrorRaised(e: ResponseError): (r: Raised)
    ensures r.OtherRaised?
    ensures !e.BadHeaders? <==> r.kind == "TypeError"
    ensures e.TupleArity? ==> r.text == TupleArityMessage
    ensures e.IllegalBody? ==> r.text == IllegalBodyPrefix + "<class '" + e.typeName + "'>"
    ensures e.NotSerializable? ==> r.text == e.message
    ensures !e.NotSerializable? ==> r.text != ""
  {
    match e
    case TupleArity(_) => OtherRaised("TypeError", TupleArityMessage)
    case IllegalBody(t) => OtherRaised("TypeError", IllegalBodyPrefix + "<class '" + t + "'>")
    case NotSerializable(m) => OtherRaised("TypeError", m)
    case BadHeaders => OtherRaised("ValueError", BadHeadersText)
  }

  /** Every error `make_response` raises carries a non-empty text, so an
      Api with the plain ApiException class answers it with status 500. */
  lemma ResponseErrorsKeep500(rv: Value)
    requires MakeResponse(rv).Err?
    ensures ResponseErrorRaised(MakeResponse(rv).error).text != ""
    ensures HandleError(ApiExceptionClass, ResponseErrorRaised(MakeResponse(rv).error)).status == VInt(500)
  {
    var e := ResponseErrorRaised(MakeResponse(rv).error);
    BaseApiWrapsOtherErrors(e.kind, e.text);
  }

  /** The body of `wsgi_app`'s try block: match, call exactly the function
      bound to the matched endpoint with the captured arguments, and shape its
      result; the first error raised propagates. */
  function Serve(views: map<string, Func>, matched: Result<Match, Raised>,
                 call: (Func, map<string, Value>) -> Result<Value, Raised>): (r: Result<Response, Raised>)
    ensures matched.Err? ==> r == Err(matched.error)
    ensures matched.Ok? && matched.value.endpoint !in views ==> r == Err(OtherRaised("KeyError", PyStrRepr(matched.value.endpoint)))
    ensures matched.Ok? && matched.value.endpoint in views ==>
      var out := call(views[matched.value.endpoint], matched.value.args);
      && (out.Err? ==> r == Err(out.error))
      && (out.Ok? && MakeResponse(out.value).Err? ==> r == Err(ResponseErrorRaised(MakeResponse(out.value).error)))
      && (out.Ok? && MakeResponse(out.value).Ok? ==> r == Ok(MakeResponse(out.value).value))
    ensures r.Ok? ==>
      (matched.Ok? && matched.value.endpoint in views
      && call(views[matched.value.endpoint], matched.value.args).Ok?
      && MakeResponse(call(views[matched.value.endpoint], matched.value.args).value) == Ok(r.value))
  {
    match matched
    case Err(e) => Err(e)
    case Ok(m) =>
      match LookupView(views, m.endpoint)
      case Err(e) => Err(e)
      case Ok(f) =>
        match call(f, m.args)
        case Err(e) => Err(e)
        case Ok(rv) =>
          match MakeResponse(rv)
          case Err(te) => Err(ResponseErrorRaised(te))
          case Ok(resp) => Ok(resp)
  }

  // ---- the application object --------------------------------------------

  class App {
    var urlMap: seq<Rule>
    var viewFunctions: map<string, Func>
    var blueprints: map<string, object>
    var apiSet: set<string>
    var userExceptionHandler: UserExceptionHandler
    /** Whether a request context is bound to the current worker. */
    ghost var contextBound: bool

    function Table(): RuleTable
      reads this
    {
      RuleTable(urlMap, viewFunctions)
    }

    function State(): AppState
      reads this
    {
      AppState(RuleTable(urlMap, viewFunctions), ApiRegistry(apiSet, userExceptionHandler))
    }

    /** `PPrika()`: everything empty, the application's own error handler in
        place, no request context bound. */
    constructor ()
      ensures State() == AppState(RuleTable([], map[]), NoApis)
      ensures blueprints == map[] && !contextBound
    {
      urlMap := [];
      viewFunctions := map[];
      blueprints := map[];
      apiSet := {};
      userExceptionHandler := AppHandler;
      contextBound := false;
    }

    method AddUrlRule(path: string, endpoint: Option<string>, viewFunc: Option<Func>, methods: MethodsArg) returns (o: Outcome)
      modifies this`urlMap, this`viewFunctions
      ensures (Table(), o) == WithRule(old(Table()), path, endpoint, viewFunc, methods)
    {
      var ep := endpoint;
      if ep.None? {
        if viewFunc.None? {
          return Failed(MissingViewFunc);
        }
        ep := Some(viewFunc.value.name);
      }
      var ms := NormaliseMethods(methods);
      urlMap := urlMap + [Rule(path, ms, ep.value)];
      if viewFunc.Some? {
        if ep.value in viewFunctions && viewFunctions[ep.value] != viewFunc.value {
          return Failed(EndpointTaken(ep.value));
        }
        viewFunctions := viewFunctions[ep.value := viewFunc.value];
      }
      o := Done;
    }

    /** `@app.route(path, endpoint=..., methods=...)` applied to `func`: the
        registration uses the `endpoint` option, and the decorator hands back
        `func` itself. */
    method Route(path: string, endpoint: Option<string>, methods: MethodsArg, func: Func) returns (r: Result<Func, SetupError>)
      modifies this`urlMap, this`viewFunctions
      ensures var (t, o) := WithRule(old(Table()), path, endpoint, Some(func), methods);
              Table() == t && (o.Done? ==> r == Ok(func)) && (o.Failed? ==> r == Err(o.error))
    {
      var o := AddUrlRule(path, endpoint, Some(func), methods);
      if o.Failed? {
        return Err(o.error);
      }
      r := Ok(func);
    }

    /** The name check of `register_blueprint`, on `blueprints`. */
    method ClaimName(name: string, bp: object) returns (o: Outcome)
      modifies this`blueprints
      ensures ClaimBlueprintName(old(blueprints), name, bp).None? ==>
        o == Failed(BlueprintNameTaken(name)) && blueprints == old(blueprints)
      ensures ClaimBlueprintName(old(blueprints), name, bp).Some? ==>
        o == Done && blueprints == ClaimBlueprintName(old(blueprints), name, bp).value
    {
      if name in blueprints {
        if blueprints[name] != bp {
          return Failed(BlueprintNameTaken(name));
        }
      } else {
        blueprints := blueprints[name := bp];
      }
      o := Done;
    }

    /** Running one queued command against this application. */
    method Apply(c: Command) returns (o: Outcome)
      modifies this`urlMap, this`viewFunctions, this`apiSet, this`userExceptionHandler
      ensures (State(), o) == Step(old(State()), c)
    {
      match c
      case AddRule(path, endpoint, viewFunc, methods) =>
        o := AddUrlRule(path, Some(endpoint), viewFunc, methods);
      case ScopedErrorHandler(_, _, _) =>
        o := Done;
      case AppErrorHandler(_, _) =>
        o := Failed(NoAppErrorHandler);
      case InitApi(api) =>
        var reg := InitApp(ApiRegistry(apiSet, userExceptionHandler), api);
        apiSet, userExceptionHandler := reg.apiSet, reg.handler;
        o := Done;
    }

    /** `wsgi_app`: bind the request context, dispatch and shape the
        response, and unbind the context whatever happened. */
    method WsgiApp(matched: Result<Match, Raised>, call: (Func, map<string, Value>) -> Result<Value, Raised>)
      returns (r: Result<Response, Raised>)
      modifies this`contextBound
      ensures !contextBound
      ensures r == Serve(viewFunctions, matched, call)
    {
      contextBound := true;
      r := Serve(viewFunctions, matched, call);
      contextBound := false;
    }
  }
}
