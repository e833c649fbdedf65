/** The error classes of the framework and of the two example applications:
    `ApiException` (pprika/restful.py), the `CustomException` family of the
    confession-board app (app/exception.py) and the `CustomException` /
    `GreenLemon` pair of the test app (test_app/v1/exception.py).

    A class is data: its name, the qualified names of its ancestors (for
    `isinstance`), which `__init__`/`get_response` it inherits (its family),
    and its class-level defaults. An instance starts from the class defaults and
    its `__init__` overwrites some of them. Attributes hold Python values whose
    truthiness matters, so that a status that is really a message string (as the
    argument swap in app/exception.py produces) stays visible. */
module Exceptions {
  import opened Common
  import opened Responses

  /** The Python values that reach exception attributes. */
  datatype PyVal = PNone | PInt(i: int) | PStr(s: string)

  predicate Truthy(v: PyVal)
  {
    match v
    case PNone => false
    case PInt(i) => i != 0
    case PStr(s) => s != ""
  }

  function ToValue(v: PyVal): Value
  {
    match v
    case PNone => VNone
    case PInt(i) => VInt(i)
    case PStr(s) => VStr(s)
  }

  /** `"%s" % v`: `None`, the decimal digits of an int (after a minus sign
      when negative), or the string itself. */
  function Format(v: PyVal): (r: string)
    ensures v.PNone? ==> r == "None"
    ensures v.PStr? ==> r == v.s
    ensures v.PInt? && v.i >= 0 ==> r == NatToString(v.i)
    ensures v.PInt? && v.i < 0 ==> |r| > 1 && r[0] == '-' && r[1..] == NatToString(-v.i)
  {
    match v
    case PNone => "None"
    case PInt(i) => IntToString(i)
    case PStr(s) => s
  }

  /** Which `__init__` and `get_response` a class uses. */
  datatype Family =
    | Base        // pprika/restful.py ApiException
    | AppCustom   // app/exception.py CustomException and its subclasses
    | DemoCustom  // test_app/v1/exception.py CustomException and GreenLemon

  datatype ExcClass = ExcClass(
    name: string,           // __class__.__name__
    qualName: string,       // distinguishes the two CustomException classes
    bases: seq<string>,     // qualified names of the ancestors up to ApiException
    family: Family,
    code: PyVal,
    status: PyVal,
    message: PyVal)

  datatype ExcInstance = ExcInstance(cls: ExcClass, status: PyVal, message: PyVal, code: PyVal)

  /** `isinstance(e, cls)`. */
  predicate IsInstance(e: ExcInstance, cls: ExcClass)
  {
    e.cls.qualName == cls.qualName || cls.qualName in e.cls.bases
  }

  // ---- pprika/restful.py -------------------------------------------------

  const ApiExceptionClass := ExcClass("ApiException", "pprika.restful.ApiException", [], Base, PNone, PNone, PNone)

  /** An instance before `__init__` runs: every attribute read falls through to
      the class. */
  function Blank(cls: ExcClass): ExcInstance
  {
    ExcInstance(cls, cls.status, cls.message, cls.code)
  }

  /** `ApiException.__init__(status, message)`: both attributes are replaced
      only when both arguments are truthy; otherwise the defaults stay. */
  function ApiInit(e: ExcInstance, status: PyVal, message: PyVal): (r: ExcInstance)
    ensures r.cls == e.cls && r.code == e.code
    ensures Truthy(status) && Truthy(message) ==> r.status == status && r.message == message
    ensures !Truthy(status) || !Truthy(message) ==> r == e
  {
    if Truthy(status) && Truthy(message) then e.(status := status, message := message) else e
  }

  /** `str(e)`: `<ClassName 'status: message'>`, with "???" for a falsy
      status and "Unknown Error" for a falsy message. */
  function Str(e: ExcInstance): (r: string)
    ensures "<" + e.cls.name + " '" <= r
    ensures |r| >= 2 && r[|r| - 2..] == "'>"
    ensures var status := if Truthy(e.status) then Format(e.status) else "???";
            var msg := if Truthy(e.message) then Format(e.message) else "Unknown Error";
            r == "<" + e.cls.name + " '" + status + ": " + msg + "'>"
    ensures !Truthy(e.status) && !Truthy(e.message) ==> r == "<" + e.cls.name + " '???: Unknown Error'>"
  {
    var status := if Truthy(e.status) then Format(e.status) else "???";
    var msg := if Truthy(e.message) then Format(e.message) else "Unknown Error";
    "<" + e.cls.name + " '" + status + ": " + msg + "'>"
  }

  // ---- app/exception.py --------------------------------------------------

  const AppCustomName := "app.exception.CustomException"

  const AppCustomClass := ExcClass("CustomException", AppCustomName, ["pprika.restful.ApiException"], AppCustom, PNone, PNone, PNone)

  /** A subclass of the app's CustomException with its constant table row. */
  function AppSubclass(name: string, code: int, status: int, message: string): ExcClass
  {
    ExcClass(name, "app.exception." + name, [AppCustomName, "pprika.restful.ApiException"], AppCustom,
             PInt(code), PInt(status), PStr(message))
  }

  const ForbiddenWordClass := AppSubclass("ForbiddenWord", 2001, 403, "发表的文段中包含敏感词汇")
  const NotFoundClass := AppSubclass("NotFound", 2002, 404, "未发现所请求的资源")
  const PrivateVoiceClass := AppSubclass("PrivateVoice", 2003, 403, "该voice设置了隐私，无法查看")
  const LackOfInfoClass := AppSubclass("LackOfInfo", 1001, 400, "用户名或密码缺失")
  const UserAlreadyExistClass := AppSubclass("UserAlreadyExist", 1002, 401, "该用户名已被注册")
  const PwdErrorClass := AppSubclass("PwdError", 1003, 401, "密码错误")
  const NotLoginClass := AppSubclass("NotLogin", 1004, 401, "未登录或登录信息错误")

  /** The app's subclasses, in declaration order. */
  const AppSubclasses := [ForbiddenWordClass, NotFoundClass, PrivateVoiceClass, LackOfInfoClass,
                          UserAlreadyExistClass, PwdErrorClass, NotLoginClass]

  /** `CustomException.__init__(message, status)` of the app: it forwards its
      two parameters positionally into `ApiException.__init__(status, message)`,
      so `message` lands in `status` and `status` in `message`; then `code`
      keeps the class code when truthy and takes `status` otherwise. */
  function AppInit(cls: ExcClass, message: PyVal, status: PyVal): (r: ExcInstance)
    ensures r.cls == cls
    ensures Truthy(message) && Truthy(status) ==> r.status == message && r.message == status
    ensures !Truthy(message) || !Truthy(status) ==> r.status == cls.status && r.message == cls.message
    ensures r.code == if Truthy(cls.code) then cls.code else status
  {
    ApiInit(Blank(cls), message, status).(code := if Truthy(cls.code) then cls.code else status)
  }

  // ---- test_app/v1/exception.py ------------------------------------------

  const DemoCustomName := "test_app.v1.exception.CustomException"

  const DemoCustomClass := ExcClass("CustomException", DemoCustomName, ["pprika.restful.ApiException"], DemoCustom, PNone, PNone, PNone)

  const GreenLemonClass := ExcClass("GreenLemon", "test_app.v1.exception.GreenLemon",
                                    [DemoCustomName, "pprika.restful.ApiException"], DemoCustom,
                                    PInt(2333), PInt(403), PStr("太绿了太绿了"))

  /** `CustomException.__init__(status, message)` of the test app: forwards
      in the same order, and replaces `code` by `status` only when `status` is
      truthy. */
  function DemoInit(cls: ExcClass, status: PyVal, message: PyVal): (r: ExcInstance)
    ensures r.cls == cls
    ensures Truthy(status) && Truthy(message) ==> r.status == status && r.message == message
    ensures !Truthy(status) || !Truthy(message) ==> r.status == cls.status && r.message == cls.message
    ensures r.code == if Truthy(status) then status else cls.code
  {
    var e := ApiInit(Blank(cls), status, message);
    if Truthy(status) then e.(code := status) else e
  }

  // ---- construction and responses by family ------------------------------

  /** `cls(a, b)`: a positional call, bound to the parameters of the
      `__init__` the class inherits. */
  function Construct(cls: ExcClass, a: PyVal, b: PyVal): (r: ExcInstance)
    ensures r.cls == cls
    ensures Truthy(a) && Truthy(b) ==> r.status == a && r.message == b
    ensures !(Truthy(a) && Truthy(b)) ==> r.status == cls.status && r.message == cls.message
    ensures cls.family == AppCustom ==> r.code == if Truthy(cls.code) then cls.code else b
    ensures cls.family == DemoCustom ==> r.code == if Truthy(a) then a else cls.code
    ensures cls.family == Base ==> r.code == cls.code
  {
    match cls.family
    case Base => ApiInit(Blank(cls), a, b)
    case AppCustom => AppInit(cls, a, b)
    case DemoCustom => DemoInit(cls, a, b)
  }

  /** The JSON body `get_response` builds for each family. */
  function ErrorBody(e: ExcInstance): seq<(Value, Value)>
  {
    match e.cls.family
    case Base => [(VStr("msg"), ToValue(e.message))]
    case AppCustom => [(VStr("code"), ToValue(e.code)), (VStr("msg"), ToValue(e.message))]
    case DemoCustom => [(VStr("code"), ToValue(e.code)), (VStr("msg"), ToValue(e.message)), (VStr("data"), VStr(""))]
  }

  /** `e.get_response()`: `make_response((body, e.status))`. The status is
      never header-like, so it always lands in the status slot and the body
      always gets the JSON Content-type. */
  function GetResponse(e: ExcInstance): (r: Result<Response, ResponseError>)
    ensures r == Ok(Response(Json(ErrorBody(e)), ToValue(e.status), VHeaders([("Content-type", "application/json")])))
  {
    var body := ErrorBody(e);
    assert forall i :: 0 <= i < |body| ==> IsJsonKey(body[i].0) && JsonEncodable(body[i].1);
    MakeResponse(VTuple([VDict(body), ToValue(e.status)]))
  }

  // ---- properties of the class tables ------------------------------------

  /** The app's subclass table: codes and statuses as declared, and every code
      distinct, so a client can tell the errors apart by code alone. */
  lemma AppSubclassTable()
    ensures ForbiddenWordClass.code == PInt(2001) && ForbiddenWordClass.status == PInt(403)
    ensures NotFoundClass.code == PInt(2002) && NotFoundClass.status == PInt(404)
    ensures PrivateVoiceClass.code == PInt(2003) && PrivateVoiceClass.status == PInt(403)
    ensures LackOfInfoClass.code == PInt(1001) && LackOfInfoClass.status == PInt(400)
    ensures UserAlreadyExistClass.code == PInt(1002) && UserAlreadyExistClass.status == PInt(401)
    ensures PwdErrorClass.code == PInt(1003) && PwdErrorClass.status == PInt(401)
    ensures NotLoginClass.code == PInt(1004) && NotLoginClass.status == PInt(401)
    ensures forall i, j :: 0 <= i < j < |AppSubclasses| ==> AppSubclasses[i].code != AppSubclasses[j].code
    ensures forall i :: 0 <= i < |AppSubclasses| ==> IsInstance(Blank(AppSubclasses[i]), AppCustomClass)
  {
  }

  /** A subclass raised with no arguments keeps its whole table row. */
  lemma AppBareRaiseKeepsDefaults(cls: ExcClass)
    requires cls in AppSubclasses
    ensures AppInit(cls, PNone, PNone) == Blank(cls)
  {
  }

  /** A keyword-only message, as in `NotFound(message=...)`, is bound to the
      `message` parameter, forwarded as the status, and with no second
      argument nothing is overwritten: the class message and status survive and
      the supplied text is lost. */
  lemma AppKeywordMessageIsLost(cls: ExcClass, text: string)
    requires cls in AppSubclasses
    ensures AppInit(cls, PStr(text), PNone) == Blank(cls)
  {
  }

  /** A positional call `(a, b)` with both truthy ends with status a and
      message b; when the class has no code of its own (the base
      CustomException), `code` becomes b. */
  lemma AppPositionalCall(a: PyVal, b: PyVal)
    requires Truthy(a) && Truthy(b)
    ensures Construct(AppCustomClass, a, b) == ExcInstance(AppCustomClass, a, b, b)
  {
  }

  /** `GreenLemon()`: code 2333, status 403 and the class message. */
  lemma GreenLemonDefaults()
    ensures DemoInit(GreenLemonClass, PNone, PNone) == ExcInstance(GreenLemonClass, PInt(403), PStr("太绿了太绿了"), PInt(2333))
  {
  }

  /** `str(GreenLemon())`, as the test app's view prints it. */
  lemma GreenLemonStr()
    ensures Str(DemoInit(GreenLemonClass, PNone, PNone)) == "<GreenLemon '403: 太绿了太绿了'>"
  {
    var e := DemoInit(GreenLemonClass, PNone, PNone);
    GreenLemonDefaults();
    StatusText403();
    assert Format(e.status) == "403";
    assert Format(e.message) == "太绿了太绿了";
    assert Str(e) == "<" + "GreenLemon" + " '" + "403" + ": " + "太绿了太绿了" + "'>";
  }

  /** The decimal text of GreenLemon's status. */
  lemma StatusText403()
    ensures NatToString(403) == "403"
  {
    assert 403 / 10 == 40 && 403 % 10 == 3;
    assert 40 / 10 == 4 && 40 % 10 == 0;
    assert NatToString(4) == "4";
    assert NatToString(40) == "40";
  }

  /** A bare ApiException prints with both fallbacks. */
  lemma ApiExceptionStr()
    ensures Str(Blank(ApiExceptionClass)) == "<ApiException '???: Unknown Error'>"
  {
    var e := Blank(ApiExceptionClass);
    assert !Truthy(e.status) && !Truthy(e.message);
    assert e.cls.name == "ApiException";
    assert Str(e) == "<" + "ApiException" + " '???: Unknown Error'>";
  }
}
