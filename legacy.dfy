/** The older standalone application object (pprika.py): the same rule
    registration as the framework's application, and a request entry point
    that answers every request with status 200 and an HTML content type,
    whatever the view returned. */
module Legacy {
  import opened Common
  import opened Responses
  import opened ErrorRouting
  import opened Registry

  /** The fixed response around a view's return value. */
  function HtmlResponse(rv: Value): (r: Response)
    ensures r.status == VInt(200) && r.headers == VHeaders([("Content-type", "text/html")])
    ensures r.body == Data(rv)
  {
    Response(Data(rv), VInt(200), VHeaders([("Content-type", "text/html")]))
  }

  class LegacyApp {
    var urlMap: seq<Rule>
    var viewFunctions: map<string, Func>

    function Table(): RuleTable
      reads this
    {
      RuleTable(urlMap, viewFunctions)
    }

    constructor ()
      ensures Table() == RuleTable([], map[])
    {
      urlMap := [];
      viewFunctions := map[];
    }

    /** `add_url_rule`, exactly as the framework's application does it. */
    method AddUrlRule(path: string, endpoint: Option<string>, viewFunc: Option<Func>, methods: MethodsArg) returns (o: Outcome)
      modifies this
      ensures (Table(), o) == WithRule(old(Table()), path, endpoint, viewFunc, methods)
    {
      var ep := endpoint;
      if ep.None? {
        if viewFunc.None? {
          return Failed(MissingViewFunc);
        }
        ep := Some(viewFunc.value.name);
      }
      var ms := NormaliseMethods(methods);
      urlMap := urlMap + [Rule(path, ms, ep.value)];
      if viewFunc.Some? {
        if ep.value in viewFunctions && viewFunctions[ep.value] != viewFunc.value {
          return Failed(EndpointTaken(ep.value));
        }
        viewFunctions := viewFunctions[ep.value := viewFunc.value];
      }
      o := Done;
    }

    /** `@app.route(path, endpoint)`: the endpoint is positional, methods are
        never given, and the decorator hands back `func` itself. */
    method Route(path: string, endpoint: Option<string>, func: Func) returns (r: Result<Func, SetupError>)
      modifies this
      ensures var (t, o) := WithRule(old(Table()), path, endpoint, Some(func), NoMethods);
              Table() == t && (o.Done? ==> r == Ok(func)) && (o.Failed? ==> r == Err(o.error))
    {
      var o := AddUrlRule(path, endpoint, Some(func), NoMethods);
      if o.Failed? {
        return Err(o.error);
      }
      r := Ok(func);
    }

    /** `wsgi_app`: match, call the function bound to the endpoint, and wrap
        whatever it returned in the fixed HTML response. */
    method WsgiApp(matched: Result<Match, Raised>, call: (Func, map<string, Value>) -> Result<Value, Raised>)
      returns (r: Result<Response, Raised>)
      ensures matched.Err? ==> r == Err(matched.error)
      ensures matched.Ok? && matched.value.endpoint !in viewFunctions ==>
        r == Err(OtherRaised("KeyError", PyStrRepr(matched.value.endpoint)))
      ensures matched.Ok? && matched.value.endpoint in viewFunctions ==>
        var out := call(viewFunctions[matched.value.endpoint], matched.value.args);
        (out.Err? ==> r == Err(out.error)) && (out.Ok? ==> r == Ok(HtmlResponse(out.value)))
      ensures r.Ok? ==> r.value.status == VInt(200) && r.value.headers == VHeaders([("Content-type", "text/html")])
    {
      if matched.Err? {
        return Err(matched.error);
      }
      var m := matched.value;
      if m.endpoint !in viewFunctions {
        return Err(OtherRaised("KeyError", PyStrRepr(m.endpoint)));
      }
      var out := call(viewFunctions[m.endpoint], m.args);
      if out.Err? {
        return Err(out.error);
      }
      r := Ok(HtmlResponse(out.value));
    }
  }
}
