# pprika in Dafny

pprika is a small Flask-like web framework focused on REST APIs. It has four main parts:

- an application object (`PPrika`) that keeps a list of URL rules and an endpoint-to-view table;
- blueprints, which queue registrations under a name and a URL prefix and replay them when an application registers them;
- Apis, blueprints whose error router turns an error raised under them into a JSON response through an exception class, once the application's `handle_user_exception` is called with it;
- `make_response`, which turns whatever a view returned into a response.

The repository also holds two small applications built on it. One is a voice board with users, logins and paginated voices. The other is a test application with its own exception class.

This project models those parts and proves properties of the model.

- `Common` (common.dfy): `Option`/`Result`, plus the string operations the framework uses:
  - ASCII case mapping;
  - `rstrip`/`lstrip` of one character;
  - substring test;
  - `str(int)`;
  - `repr` of a str, with the reading-back that shows it loses nothing.
- `Responses` (responses.dfy): `make_response`, a case analysis over a datatype of the values a view can return. A dict body becomes `Json(d)`, which stands for the compact JSON text of `d`.
- `Exceptions` (exceptions.dfy): `ApiException`, the voice board's `CustomException` family and the test application's `CustomException`/`GreenLemon`.
  - Each class is a value holding its class attributes and which `__init__` it inherits.
  - Attributes hold Python values with truthiness. This keeps the argument swap in app/exception.py visible.
- `ErrorRouting` (error_routing.dfy): what an Api does to an application (`_init_app`), which errors its router claims (`_error_router`), and how `handle_error` normalises them.
- `Registry` (registry.dfy): the application.
  - Pure functions give the effect of one registration (`WithRule`), of one queued command (`Step`) and of a whole queue (`Replay`).
  - `class App` holds `url_map`, `view_functions`, `blueprints`, `api_set` and the user-exception slot as fields. Its methods are proved to act as those functions say.
- `Blueprints` (blueprints.dfy): `class Blueprint` with its queue of commands, the `Api` constructor, and `RegisterBlueprint`.
- `Voices` (voices.dfy) and `Users` (users.dfy): the voice board's pagination, its owner-checked edits of the voice list (`class VoiceBoard`), and the user registry (`class UserDb`).
- `Legacy` (legacy.dfy): the older standalone `pprika.py`.

Several calls in the source do not match their callees. Each piece is modelled at its own interface:

- pprika/app.py:104 calls `blueprint.register(self, options)`, but `Blueprint.register` (pprika/blueprint.py:15) takes only the application. `RegisterBlueprint` passes only the application.
- pprika/blueprint.py:62 passes `(code, func, name)`, but pprika/app.py:106 declares `(bp_name, code_or_exception, func)`. Either way that method does nothing, so a scoped error-handler command is a no-op in `Step`.
- pprika/restful.py:51 appends to `deferred_funcs`, while `Blueprint.__init__` (pprika/blueprint.py:13) creates `_deferred_funcs`. The `Api` constructor queues onto the blueprint's one queue.
- pprika/restful.py:54 reads `app.api_set`, which `PPrika.__init__` (pprika/app.py:14-18) never creates. `App` starts with an empty `api_set` and the application's own handler in the user-exception slot.
- pprika/blueprint.py:82 calls `a.error_handler(...)`, which `PPrika` (pprika/app.py) does not define. An app-wide error-handler command therefore fails (`Failed(NoAppErrorHandler)`) and stops the replay.
- pprika/restful.py:55 installs the router in `app.handle_user_exception`, but no file calls `handle_user_exception`, and `wsgi_app` (pprika/app.py:26-33) has a `try`/`finally` with no `except`. So an error raised while serving a request propagates out of `wsgi_app` (`Registry.Serve`) and reaches no Api router. The router is modelled as what a caller of `handle_user_exception` would get (`ErrorRouting.HandleUserException`).

Consequences of the code that the model makes explicit:

- `register_blueprint` accepts the same blueprint object again (pprika/app.py:97-98) and then runs its whole queue again (pprika/app.py:104, pprika/blueprint.py:20-21). The rules end up in `url_map` twice, while views and Api state are unchanged (`Registry.ReplayTwice`).
- `ApiException(500, str(e))` for an error with empty text (pprika/restful.py:79-80, for example `raise KeyError()`) has a falsy message. `__init__` (pprika/restful.py:23-26) then stores neither argument, so the 500 is lost: the response carries no status and a null `msg` (`ErrorRouting.BaseApiLosesStatusOnEmptyText`).
- The path join (pprika/blueprint.py:28) strips every trailing slash of the prefix and every leading slash of the path.
- The docstring of `Api` (pprika/restful.py:41-42) says an Api does not use the global error handler. But `_init_app` installs a router only while `api_set` is empty (pprika/restful.py:54-55). So, for a caller of `handle_user_exception`, only the first Api registered on an application has its errors normalised. Errors raised under any later Api go past the router to `app.handle_exception` (`ErrorRouting.OnlyFirstApiRoutes`).
- `VoiceList.get` (app/v1/voice.py:46-47) with page size 0 answers `left == vid` and no voices for every 1 ≤ vid ≤ len. With a negative page size, `left` grows past vid there. A client that follows `left` never reaches 0 (`Voices.NonPositivePageSizeStalls`), so the crawl lemmas assume a page size of at least 1.

## Model

| member | source | states |
|---|---|---|
| Common.TrimRight | pprika/blueprint.py:28 | `rstrip(c)`: the result is a prefix of the input, does not end in `c`, and everything removed is `c` |
| Common.TrimLeft | pprika/blueprint.py:28 | `lstrip(c)`: the result is a suffix of the input, does not start with `c`, and everything removed is `c` |
| Common.Contains | app/v1/voice.py:61 | `w in s` holds exactly when `w` occurs in `s` at some position |
| Common.NatToString | pprika/restful.py:34-36 | the decimal text of `n`: digits only, no leading zero, and its digit value is `n` |
| Common.PyStrRepr | pprika/app.py:89 | `repr(s)` as `str(KeyError(s))` shows it: double quotes exactly when `s` holds a single quote and no double quote, single quotes otherwise; a string with nothing to escape is shown as is between single quotes |
| Common.ReprRoundTrip | pprika/app.py:89 | the text between the quotes reads back, escape by escape, as the original string |
| Common.ReprSwitchesQuotes | pprika/app.py:89 | `repr("it's")` is `"it's"` |
| Responses.SetDefault | pprika/helpers.py:35-36 | after `setdefault` the header is present (names compared case-insensitively); the old headers are kept as a prefix; one pair `(key, value)` is appended exactly when no header of that name was there |
| Responses.HeaderPairs | pprika/helpers.py:35 | `Headers(None)` is empty and a Headers object is taken as is; a dict converts exactly when all its keys and values are strings, to its pairs in order; a list or tuple converts exactly when every item is a pair of strings, to those pairs in order; nothing else converts |
| Responses.Unpack | pprika/helpers.py:16-31 | 3-tuple gives (body, status, headers); in a 2-tuple the second item is headers when it is a Headers/dict/tuple/list and the status otherwise; 1-tuple gives the body; a non-tuple is the body; length 0 or over 3 is the TypeError, and only those |
| Responses.TypeName | pprika/helpers.py:40 | the class name `type(v)` shows: `NoneType`, `int`, `str`, `bytes`, `bytearray`, `tuple`, `list`, `dict` for the built-ins, a werkzeug class by its module-qualified name, any other type by its own name |
| Responses.ClassName | pprika/helpers.py:34 | `type(v).__name__`: dot-free; `Headers` and `Response` for the werkzeug classes, the type name for built-ins |
| Responses.JsonFailure | pprika/helpers.py:6-7 | `compact_dumps(v)` fails exactly when the value does not encode, always with a non-empty text: `Object of type X is not JSON serializable` for a value, `keys must be str, int, float, bool or None, not X` for the first bad dict key |
| Responses.ShapeBody | pprika/helpers.py:33-42 | succeeds exactly for str/bytes/bytearray, None, or a dict that JSON can encode (with convertible headers); a dict JSON cannot encode is the encoder's TypeError with the encoder's text; a dict becomes JSON, keeps the given headers as a prefix and gains Content-type application/json only when absent; other bodies keep their headers; the status passes through; any other body type is the TypeError naming its type |
| Responses.DictHeadersKeepContentType | pprika/helpers.py:33-36 | a dict body with dict headers that already name a Content-type (in any case) keeps exactly those headers |
| Responses.MakeResponse | pprika/helpers.py:10-43 | a Response passes through unchanged; a bad tuple length is the TypeError; otherwise the unpacked parts are shaped; a non-tuple has no status |
| Responses.MakeResponseIdempotent | pprika/helpers.py:13-14 | shaping an already shaped response gives it back |
| Responses.OneTupleIsBody | pprika/helpers.py:25-40 | `(body,)` behaves as `body`, except that a nested tuple or a Response inside it is not unwrapped again and fails as a body |
| Responses.NoneStatusIsNoStatus | pprika/helpers.py:11-24 | `(body, None)` is the same as `(body,)` |
| Responses.PairIsTripleWithoutHeaders | pprika/helpers.py:18-24 | `(body, status)` with a status that is not header-like is `(body, status, None)` |
| Exceptions.ApiInit | pprika/restful.py:23-26 | status and message are both replaced only when both arguments are truthy; otherwise the instance keeps the class defaults; code untouched |
| Exceptions.Format | pprika/restful.py:36 | `"%s" % v`: `None`, the decimal text of an int (with a minus sign when negative), or the string itself |
| Exceptions.Str | pprika/restful.py:33-36 | `<ClassName 'status: message'>`, with the status text when the status is truthy and `???` otherwise, and the message text when truthy and `Unknown Error` otherwise |
| Exceptions.AppInit | app/exception.py:8-10 | the voice board's `__init__(message, status)` forwards swapped: with both truthy, status becomes the message argument and message the status argument; otherwise the class values stay; code keeps a truthy class code and else takes the status argument |
| Exceptions.DemoInit | test_app/v1/exception.py:8-11 | the test app's `__init__(status, message)` forwards in order; code becomes status only when status is truthy |
| Exceptions.Construct | pprika/restful.py:78-80 | a positional call `cls(a, b)` binds to the inherited `__init__`: with both truthy status is a and message b, otherwise both keep the class values; the code rule of each family |
| Exceptions.GetResponse | pprika/restful.py:28-31 | `get_response` always succeeds: a JSON body (`msg`; `code,msg` for the voice board; `code,msg,data` for the test app), the instance's status as status, and the JSON Content-type |
| Exceptions.AppSubclassTable | app/exception.py:18-57 | the seven subclass codes and statuses as declared, all codes distinct, all subclasses of CustomException |
| Exceptions.AppBareRaiseKeepsDefaults | app/exception.py:8-10 | a subclass raised with no arguments keeps its whole table row |
| Exceptions.AppKeywordMessageIsLost | app/exception.py:8-10 | `Sub(message=text)` equals `Sub()`: the text is discarded, the class message and status stay |
| Exceptions.AppPositionalCall | app/exception.py:8-10 | `CustomException(a, b)` with both truthy has status a, message b and code b |
| Exceptions.GreenLemonDefaults | test_app/v1/exception.py:19-22 | `GreenLemon()` has code 2333, status 403 and the class message |
| Exceptions.GreenLemonStr | pprika/restful.py:33-36 | `str(GreenLemon())` is `<GreenLemon '403: 太绿了太绿了'>` |
| Exceptions.ApiExceptionStr | pprika/restful.py:33-36 | `str(ApiException())` is `<ApiException '???: Unknown Error'>` |
| ErrorRouting.InitApp | pprika/restful.py:53-57 | the name is always added to `api_set`; the router is installed only when `api_set` was empty, else the slot is unchanged |
| ErrorRouting.InitAppsAfterFirst | pprika/restful.py:53-57 | once `api_set` is non-empty, later Apis only add their names |
| ErrorRouting.RouterInstalledOnce | pprika/restful.py:53-57 | after k ≥ 1 Apis on a fresh application `api_set` holds exactly their names and the router is bound to the first |
| ErrorRouting.Normalise | pprika/restful.py:70-80 | an instance of the Api's class passes untouched; an HTTPException becomes `cls(code, description)`; anything else `cls(500, str(e))` |
| ErrorRouting.HandleError | pprika/restful.py:70-81 | the answer is the normalised exception's JSON response |
| ErrorRouting.BaseApiLosesStatusOnEmptyText | pprika/restful.py:70-81 | an error with empty text under ApiException keeps no status and no message: the response has no status and a null `msg` |
| ErrorRouting.ErrorRouter | pprika/restful.py:55-68 | an error goes to the Api's `handle_error` exactly when the request's blueprint is the Api's name; otherwise it is passed unchanged to `app.handle_exception`, the original handler bound at line 55 |
| ErrorRouting.HandleUserException | pprika/restful.py:55 | without a router the error reaches the application's own `handle_user_exception`; with one, never: the router answers it or hands it to `app.handle_exception` |
| ErrorRouting.RouterRedirectsOtherErrors | pprika/restful.py:53-68 | installing the first Api's router moves errors of other blueprints from the application's `handle_user_exception` to `app.handle_exception` |
| ErrorRouting.OnlyFirstApiRoutes | pprika/restful.py:53-68 | with several Apis, errors under a later Api's name go to `app.handle_exception`, and errors under the first Api's name are answered by it |
| ErrorRouting.AppApiRebuildsHttpErrors | pprika/restful.py:77-78 | under the voice board's CustomException an HTTP error keeps its code as status and its description as both message and code |
| ErrorRouting.BaseApiWrapsOtherErrors | pprika/restful.py:79-80 | under ApiException any other error is a 500 whose message is its text |
| Registry.DefaultEndpoint | pprika/app.py:52-54 | the endpoint is the given one, else the view function's name; with neither there is none |
| Registry.NormaliseMethods | pprika/app.py:56-60 | never empty, all upper-case; absent or empty gives {"GET"}; a bare string gives its upper-case alone; a list gives exactly the upper-cased names |
| Registry.MethodCaseVariantsCollapse | pprika/app.py:56-60 | two spellings differing only in case give one method |
| Registry.BindView | pprika/app.py:66-70 | refused exactly when the endpoint is bound to a different function; otherwise the endpoint maps to the function and other entries are kept |
| Registry.BindSameIsNoOp | pprika/app.py:66-70 | binding an endpoint again to the function it has changes nothing |
| Registry.WithRule | pprika/app.py:46-70 | no endpoint and no function fails with nothing changed, and only that case is MissingViewFunc; otherwise exactly one rule is appended before the conflict check, so a refused binding still leaves its rule; the call succeeds exactly when there is an endpoint and no function or a function the endpoint is free for or already bound to; views change only on success with a function |
| Registry.WithRuleKeepsViewsRouted | pprika/app.py:62-70 | every bound endpoint keeps a rule in `url_map` |
| Registry.SamePairTwice | pprika/app.py:62-70 | one function under one endpoint at a second path is accepted, leaves the view table as it was and adds one more rule |
| Registry.ClaimBlueprintName | pprika/app.py:96-103 | a new name is recorded; the same object again is accepted with nothing changed; a different object under a taken name is refused |
| Registry.Step | pprika/blueprint.py:43-45 | a rule command is `add_url_rule` with the scoped endpoint; a scoped handler command does nothing; an app-wide handler command fails; an Api command runs `_init_app` |
| Registry.Replay | pprika/blueprint.py:20-21 | a replay that does not fail runs every command |
| Registry.ReplayAppend | pprika/blueprint.py:20-21 | replaying `a + b` is replaying `a`, then `b` from where it stopped, unless `a` failed |
| Registry.ReplayStopsAtFailure | pprika/blueprint.py:20-21 | a failed replay stopped at the failing command, after every earlier one succeeded |
| Registry.ReplayAppendsRules | pprika/blueprint.py:20-21 | a successful replay appends the queued rules to `url_map` in queue order |
| Registry.ReplayExtends | pprika/blueprint.py:20-21 | a successful replay only adds view bindings and Api names |
| Registry.ReplaySettles | pprika/blueprint.py:20-21 | after a successful replay every command's binding and Api name are in place |
| Registry.ReplaySettled | pprika/blueprint.py:20-21 | replaying commands already in place succeeds and only appends their rules |
| Registry.ReplayTwice | pprika/app.py:96-104 | registering the same queue again succeeds, leaves views and Api state unchanged, and duplicates the rules |
| Registry.LookupView | pprika/app.py:88-89 | the view is exactly `view_functions[endpoint]`; an unbound endpoint is a KeyError whose text is `repr(endpoint)` |
| Registry.ResponseErrorRaised | pprika/helpers.py:27-40 | the arity and body-type failures are TypeErrors with the source's messages, the illegal type shown as `<class '...'>`; the JSON encoder's failure is a TypeError with the encoder's text; every text is non-empty |
| Registry.ResponseErrorsKeep500 | pprika/restful.py:70-81 | an error raised by `make_response` has a non-empty text, so an Api with the plain ApiException class answers it with status 500 |
| Registry.Serve | pprika/app.py:27-31 | a match error or KeyError propagates; otherwise the function bound to the matched endpoint is called with the captured arguments: its error propagates, a `make_response` failure is raised, and a shaped result is the response |
| Registry.App.constructor | pprika/app.py:14-18 | empty rule list, view table and blueprint table |
| Registry.App.AddUrlRule | pprika/app.py:46-70 | the new rule list, view table and outcome are those of `WithRule` |
| Registry.App.Route | pprika/app.py:72-81 | registers under the `endpoint` option and returns the function itself on success |
| Registry.App.ClaimName | pprika/app.py:96-103 | the blueprint table becomes `ClaimBlueprintName`'s, or a refusal with nothing changed |
| Registry.App.Apply | pprika/blueprint.py:43-45 | running one queued command changes the application as `Step` says |
| Registry.App.WsgiApp | pprika/app.py:20-33 | the result is `Serve`'s, and the request context is unbound again on every path, also for a nested call |
| Blueprints.DefaultPrefix | pprika/blueprint.py:9-12 | the given prefix, else `"/" + name` |
| Blueprints.JoinPath | pprika/blueprint.py:28 | the joined path is as long as the stripped prefix, a slash and the stripped path |
| Blueprints.JoinPathOneSlash | pprika/blueprint.py:28 | exactly one slash at the join, between the prefix without its trailing slashes and the path without its leading ones |
| Blueprints.JoinPathIgnoresJointSlashes | pprika/blueprint.py:28 | any number of extra slashes at the join gives the same path |
| Blueprints.ScopedEndpoint | pprika/blueprint.py:40 | the endpoint is the name, a dot, then the local endpoint |
| Blueprints.ScopedEndpointLastDot | pprika/blueprint.py:30-40 | with a dot-free local endpoint the dot after the name is the last one |
| Blueprints.ScopedEndpointInjective | pprika/blueprint.py:30-40 | two blueprints with different names never produce the same endpoint, and the local endpoint is recovered |
| Blueprints.RuleCommand | pprika/blueprint.py:23-45 | a dotted function name is refused first, then a dotted endpoint (with a clean function name that is exactly the DottedEndpoint refusal), then a missing function without endpoint; otherwise the queued rule has the joined path, the scoped dot-free endpoint, the same function and methods |
| Blueprints.ApiClass | pprika/restful.py:45-50 | the given exception class, else ApiException |
| Blueprints.Blueprint.constructor | pprika/blueprint.py:8-13 | name, default prefix and an empty queue |
| Blueprints.Blueprint.Api | pprika/restful.py:47-51 | an Api's queue starts with its own `_init_app` command, with ApiException unless a class is given |
| Blueprints.Blueprint.AddUrlRule | pprika/blueprint.py:23-45 | a refused call queues nothing and reports `RuleCommand`'s error; otherwise exactly `RuleCommand`'s rule is appended to the queue |
| Blueprints.Blueprint.Route | pprika/blueprint.py:47-55 | as `AddUrlRule` with the function, returning the function itself |
| Blueprints.Blueprint.RegisterErrorHandler | pprika/blueprint.py:57-63 | appends exactly one handler command scoped to the blueprint's name |
| Blueprints.Blueprint.ErrorHandler | pprika/blueprint.py:65-74 | queues the same command as `RegisterErrorHandler` and returns the handler |
| Blueprints.Blueprint.AppErrorHandler | pprika/blueprint.py:76-85 | appends exactly one app-wide handler command and returns the handler |
| Blueprints.Blueprint.Register | pprika/blueprint.py:15-21 | the application ends as `Replay` of the queue says, stopping at the first failing command |
| Blueprints.RegisterBlueprint | pprika/app.py:91-104 | a taken name stops registration with nothing changed; otherwise the name is claimed and the queue replayed |
| Voices.PyIndex | app/v1/voice.py:79-82 | `xs[i]` exists exactly for -n ≤ i < n; negative indices count from the end |
| Voices.PySlice | app/v1/voice.py:50 | within bounds the slice is `xs[lo..hi]`; a stop past the end is clamped to the end; a start at or past the end or at or past the stop is empty; never longer than hi - lo |
| Voices.Public | app/v1/voice.py:51 | the filtered list is no longer than the input and holds only non-private voices |
| Voices.PublicMembers | app/v1/voice.py:51 | a voice is in the filtered list if and only if it is in the input and not private |
| Voices.PublicOfAllPublic | app/v1/voice.py:51 | a list without private voices passes the filter unchanged |
| Voices.Reverse | app/v1/voice.py:52 | element i is element n-1-i of the input |
| Voices.Cursor | app/v1/voice.py:46 | the cursor is at least -1 and inside the list (or 0 on an empty list for a negative number); for 1 ≤ vid ≤ n it is vid - 1; past the end it is n - 1; a negative number gives 0 and 0 gives -1 |
| Voices.Begin | app/v1/voice.py:47 | never negative; for ps ≥ 0 the window from it to the cursor holds exactly min(ps, cursor + 1) voices; for ps < 0 it lies past the cursor |
| Voices.Page | app/v1/voice.py:34-54 | `left` is never negative; vid -1 gives the count and no voices; at most ps voices; none private; all from the list |
| Voices.PageWindow | app/v1/voice.py:46-52 | for 1 ≤ vid ≤ n and ps ≥ 1 the page is the public part of `voices[max(0, vid-ps)..vid]` newest first, and `left` is where it starts |
| Voices.PageBeyondEnd | app/v1/voice.py:46 | a number past the newest voice reads the same page as the newest voice's number |
| Voices.PageAtZero | app/v1/voice.py:46-52 | number 0 gives no voices and `left` 0 (or -ps for a negative page size) |
| Voices.PageBelowMinusOne | app/v1/voice.py:46-52 | a number below -1 gives the oldest voice alone when it is public, and `left` 0 |
| Voices.NonPositivePageSizeStalls | app/v1/voice.py:46-52 | for 1 ≤ vid ≤ len: with ps = 0 the page is empty with `left == vid`; with ps < 0 `left` exceeds vid |
| Voices.CrawlSeesAllPublic | app/v1/voice.py:43-52 | following `left` from a cursor returns every public voice before it exactly once, newest first |
| Voices.FirstPagesSeeAllPublic | app/v1/voice.py:43-52 | starting from the count vid -1 reports, following `left` returns all public voices, newest first |
| Voices.ZeroReachesNewest | app/v1/voice.py:76 | number 0 reads index -1, the newest voice |
| Voices.Posting | app/v1/voice.py:61-69 | the forbidden word refuses with ForbiddenWord, and only it; otherwise exactly one voice is appended, numbered with the new length |
| Voices.PostingKeepsNumbered | app/v1/voice.py:66-68 | posting keeps each voice's number equal to its position plus one |
| Voices.DeleteThenPostRepeatsNumber | app/v1/voice.py:111-124 | after a deletion, the next post repeats an existing number |
| Voices.ReadCheck | app/v1/voice.py:79-85 | a number naming no voice is NotFound; another user's private voice is PrivateVoice; otherwise the voice's index |
| Voices.OwnerCheck | app/v1/voice.py:97-103 | a number naming no voice is NotFound; another user's voice is PrivateVoice; otherwise the voice's index |
| Voices.RefusalsKeepClassDefaults | app/v1/voice.py:82 | the NotFound and PrivateVoice the handlers raise carry the class message and status, not the text they pass |
| Voices.VoiceBoard.Post | app/v1/voice.py:56-69 | a refusal stores nothing; otherwise the list is `Posting`'s and the stored record is returned with 201 |
| Voices.VoiceBoard.Get | app/v1/voice.py:75-87 | the voice `ReadCheck` selects with 200, or its refusal |
| Voices.VoiceBoard.Put | app/v1/voice.py:89-109 | a refusal changes nothing; the owner's voice gets the new date and privacy flag, every other voice untouched |
| Voices.VoiceBoard.Delete | app/v1/voice.py:111-124 | a refusal changes nothing; the owner's voice is removed and returned, the others keep their order |
| Voices.DeleteRemovesOne | app/v1/voice.py:123 | deletion removes exactly one occurrence of that voice |
| Users.Registering | app/v1/user.py:21-33 | an empty name or password is LackOfInfo before any lookup; a taken name is UserAlreadyExist; otherwise exactly one entry is added, numbered count + 1 |
| Users.LoginResult | app/v1/user.py:40-53 | LackOfInfo, then NotFound for an unknown name, then PwdError for a wrong password; otherwise a token for that name |
| Users.RegisterThenLogin | app/v1/user.py:21-53 | after signing up, logging in with that password gives a token for the name and any other password is PwdError |
| Users.RegisteringKeepsNumbering | app/v1/user.py:29-31 | sign-up keeps the user numbers exactly 1..count, each used once |
| Users.UserDb.Register | app/v1/user.py:21-33 | a refusal changes nothing; otherwise the map is `Registering`'s and the new record is returned |
| Users.UserDb.Login | app/v1/user.py:40-53 | the answer is `LoginResult`'s and nothing changes |
| Legacy.HtmlResponse | pprika.py:19-23 | status 200, Content-type text/html, the view's value as body |
| Legacy.LegacyApp.constructor | pprika.py:7-11 | empty rule list and view table |
| Legacy.LegacyApp.AddUrlRule | pprika.py:32-51 | the same registration as the framework's application (`WithRule`) |
| Legacy.LegacyApp.Route | pprika.py:53-57 | positional endpoint, no methods, returns the function itself on success |
| Legacy.LegacyApp.WsgiApp | pprika.py:13-24 | match errors, KeyError and view errors propagate; every response has status 200 and Content-type text/html |

## Left out

- pprika/context.py: the thread-local storage and `request` proxy. Only the bind/unbind discipline of `wsgi_app` is modelled, as a ghost flag on `App`.
- werkzeug routing (`Map`, `bind_to_environ`, `match`): the match result is an input of `WsgiApp`. Rule options other than `methods` are not modelled.
- werkzeug `Response` and `Headers`: a response is its body, status and headers as values. Only string-pair headers are converted. Anything else a dict body's headers could be is the `BadHeaders` error. Registry.ResponseErrorRaised raises it as a `ValueError` with a fixed text. Which exception werkzeug's `Headers` constructor raises there, and its text, are not part of this model; only that the text is not empty is.
- JSON encoding: `Json(d)` stands for `compact_dumps(d)`; the text is not produced. Which values encode is modelled (`JsonEncodable`), and so is the encoder's TypeError text for the first value or key it cannot encode (`JsonFailure`).
- Responses.TypeName: the module path shown for werkzeug's `Response` class depends on the werkzeug version; `werkzeug.wrappers.response.Response` is assumed.
- Several registration refusals are `assert` statements (pprika/app.py:53, 98; pprika/blueprint.py:31-38; pprika.py:34). The model keeps them, as under a normal interpreter. Under `python -O` they vanish. A missing function then fails at `view_func.__name__` with an AttributeError, and dotted names are accepted. A different blueprint under a taken name is not recorded, but its queue still runs. The endpoint clash at pprika/app.py:68-69 is an explicit `raise` and stays.
- `run` and `__call__`: starting a server, and a one-line delegation.
- `error_handlers` on the application (pprika/app.py:18): never read or written anywhere in pprika/app.py, so not modelled.
- The application's own `handle_exception` and `handle_user_exception`: pprika/app.py defines neither. The model records which of the two an error reaches (`ToHandleException`, `ToUserExceptionHandler`) and not what they do with it.
- `request.blueprint`: a parameter of the router.
- Registry.App.Route, Blueprints.Blueprint.Route: model one application of the decorator. Applying the same decorator object twice would register the second function without its endpoint option, because the first application pops it (pprika/app.py:78, pprika/blueprint.py:52).
- Common.PyStrRepr: escapes the quote, the backslash and the ASCII control characters as Python does; non-ASCII characters that Python does not count as printable (`\x80`-`\xa0`, `\u2028`, and others) are kept as they are instead of escaped.
- Common.Upper, Common.Lower: ASCII only. Python's `str.upper` also maps non-ASCII letters.
- app/auth.py: token signing, expiry and `login_required`. A token only records the name, and the current user is a parameter of the voice handlers.
- `datetime.now()`: the posting time is a parameter.
- `RequestParser`, `Resource` and `add_resource` are not part of this model. The parsed arguments (`vid`, `ps`, `voice`, `private`, `name`, `password`) are parameters, and their defaults, type conversion and `strict` checks are not modelled.
- The `response(data)` envelope of app/v1/__init__.py: the voice and user handlers return the record itself.
- Voices.VoiceBoard.Put: `data.update(args)` is modelled as setting the privacy flag, the only parsed argument.
- Users.UserDb.Register: the stored record keeps name, password and number, not any other field the parser would leave in `args`.
- Legacy.LegacyApp.WsgiApp: does not model the overwriting of `self.request` and `self.url_adapter`, which lets concurrent requests see each other's state.
