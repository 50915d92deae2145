# Load-balancer aliveness check, modelled in Dafny

A model of `AliveCheck`, the Django middleware of `django-lb-health-check`.
It answers load-balancer liveness probes, meaning `GET` requests to the
configured `ALIVENESS_URL` paths, with a fixed `200 OK` plain-text response.
It answers before host validation, sessions or routing run. Every other
request goes to the next middleware unchanged.

The model has the middleware's four pieces, each a pure function or method
over an explicit configuration snapshot:

- `Urls` (`_get_urls`) resolves the loosely typed `ALIVENESS_URL` setting
  into a set of paths. The setting is absent, `None`, a string, a list or
  set, or anything else.
- `Position` (`_get_middleware`, `_check_middleware_position`) warns when
  the interceptor is missing from `MIDDLEWARE`, or is listed below a stage it
  has to precede (`MUST_ABOVE`, the common middleware). Python's `list.index`
  is `FirstIndex`: the first occurrence, or `None` where Python raises.
- `AliveCheckMiddleware.Construct` (`__init__`) runs the position check,
  resolves the URLs, then logs one error when there are none and one info
  event per URL.
- `AliveCheckMiddleware.Call` (`__call__`) answers or delegates.

`Identity` holds `get_import_name` and the constants `COMMON_MIDDLWARE` and
`MUST_ABOVE`. `Settings` holds the shapes of the configuration and `Logging`
the diagnostics. Log records are returned as a sequence of `(level, message
tag)` events. `Scenarios` replays the repository's tests and its example
`MIDDLEWARE` list as concrete lemmas.

Two diagnostics are narrower than one might expect:

- The unsupported-type warning (`lb_health_check/middleware.py:75`) names
  the value only, not its type.
- The missing-interceptor warning (`lb_health_check/middleware.py:97`) reads
  "AliveCheck not found in middleware", not the full import name.

## Model

| member | source | states |
|---|---|---|
| Identity.ImportName | lb_health_check/middleware.py:45-47 | The import name is the module path, a dot and the class name. It is not one of the `MUST_ABOVE` stages, so the interceptor is never ordered against itself. |
| Urls.CollectStrings | lb_health_check/middleware.py:63-73 | For a list or set, the result holds exactly the string elements. The log holds one warning per non-string element, in iteration order, each naming that element. |
| Urls.ResolveUrls | lb_health_check/middleware.py:50-76 | Absent gives no URL and one "not set" warning. `None` gives no URL and no diagnostic. A string `s` gives exactly `{s}`. Any other value gives no URL and one warning naming it. Every diagnostic is a warning, and the function is total. |
| Urls.ResolvedExactlyNamed | lb_health_check/middleware.py:50-76 | A path is watched if and only if the setting names it as a string, either as the setting itself or as one of its string elements. The result is always a subset of the input's strings. |
| Urls.EveryBadItemWarned | lb_health_check/middleware.py:66-69 | Every non-string element of a list or set gets a warning showing it. |
| Urls.QuietIffWellFormed | lb_health_check/middleware.py:50-76 | Resolution logs nothing if and only if the setting is `None`, a string, or a collection of strings only. |
| Urls.CollectionWarningsNameBadItems | lb_health_check/middleware.py:66-69 | Every warning for a collection names a non-string element of that collection. |
| Position.FirstIndex | lb_health_check/middleware.py:93 | `list.index` gives `None` if and only if the element is missing. Otherwise it gives a position holding the element with no earlier occurrence. |
| Position.AheadIffFirstIndexLess | lb_health_check/middleware.py:108 | Comparing first indices is the same as "`a` is listed before any occurrence of `b`, and `b` is listed". |
| Position.GetMiddleware | lb_health_check/middleware.py:79-84 | The returned list is the configured list, `[]` when undefined. A defined `MIDDLEWARE` is returned as is with no event. An undefined one is `[]` with one debug event. |
| Position.CheckOrder | lb_health_check/middleware.py:100-114 | A name gets an ordering warning if and only if it is listed and its first index is below the interceptor's. Every other event is the debug event for a stage that is not installed, and that debug event appears if and only if some checked stage is not listed. |
| Position.CheckPosition | lb_health_check/middleware.py:87-114 | An undefined `MIDDLEWARE` gives exactly the debug event and the "not found" warning. A list without the import name gives only `_get_middleware`'s events and one "not found" warning; the check returns early. With the import name listed, the stage debug event appears if and only if the common middleware is not listed. The check only ever emits debug and warning events. |
| Position.SelfMissingWarned | lb_health_check/middleware.py:92-98 | The "not found in middleware" warning is emitted if and only if the import name is not listed. |
| Position.ListedLogsAtMostOne | lb_health_check/middleware.py:100-114 | With the import name listed, the position check logs nothing, or only the debug event for the common middleware not being installed, or only the ordering warning for the common middleware. No other event is possible. |
| Position.OrderingWarnedIffAhead | lb_health_check/middleware.py:100-114 | The check warns about stage `n` if and only if `n` is in `MUST_ABOVE` and is listed before the interceptor's first occurrence. There is no ordering warning when the interceptor is not listed. |
| AliveCheckMiddleware.Announce | lb_health_check/middleware.py:33-34 | Produces one info event per watched URL. Each URL is announced exactly once and nothing else is announced; the set's iteration order is left open. |
| AliveCheckMiddleware.Construct | lb_health_check/middleware.py:21-34 | Construction never fails. It stores the next handler and the resolved set, so `DispatchBySetting` applies to the interceptor it returns. Its log is the position diagnostics, then the resolution diagnostics, then either the single "no URLs" error (exactly one error if and only if the set is empty) or one info event per URL, each exactly once. |
| AliveCheckMiddleware.Call | lb_health_check/middleware.py:36-43 | A request is answered with `200`, `text/plain`, `"200 OK\n"` if and only if its method is `GET` and its path is watched. Otherwise the next handler receives the request unchanged and its response is returned unchanged. |
| AliveCheckMiddleware.DispatchBySetting | lb_health_check/middleware.py:36-43 | End to end: any interceptor watching the set a setting resolves to, including the one `Construct` returns, answers exactly the `GET` requests whose path the setting names as a string. It delegates everything else. |
| AliveCheckMiddleware.OnlyGetIntercepted | lb_health_check/middleware.py:39 | Any method other than exactly `GET`, `POST` included, is delegated. |
| Scenarios.ExampleOrderingAccepted | example/example/settings.py:36-49 | In the example `MIDDLEWARE`, the import name is found at index 1 and the position check emits nothing. |
| Scenarios.OrderingWarnings | lb_health_check/middleware.py:100-114 | `[common, AliveCheck]` gives one warning naming both stages. `[AliveCheck, common]` gives none. |
| Scenarios.AbsentSettingDisables | lb_health_check/middleware.py:51-55 | An absent setting resolves to no URL with the single "not set" warning. |
| Scenarios.ConfiguredPathAnswered | lb_health_check/tests.py:6-19 | A `GET` to the configured path is answered with 200 when the setting is a string, and also when it is a one-element collection. |
| Scenarios.UnconfiguredPathDelegated | lb_health_check/tests.py:21-31 | With `None`, or for a path that is not configured, the next handler's response is returned. |
| Scenarios.MalformedSettings | lb_health_check/middleware.py:63-76 | The element `15` in a collection is skipped with a warning naming it. The value `15` on its own gives no URL and a warning naming it. |

## Left out

- Django's `settings` object and `HttpResponse` are left out. Settings are an explicit `Config` snapshot, and a response is a status, content type and body record.
- Python `logging` is left out. Events are returned as `(level, message tag)`, and the `%s`-formatted text and logger configuration are not modelled. Values that are not strings are carried only as the text a warning would show for them.
- The iteration order of a Python set is left out. A set-valued setting is a sequence in whatever order Python yields it, and the order of the per-URL info events is left open (`Construct` chooses one).
- Exceptions raised by the next handler are left out. The next handler is a total function `Request -> Response`; the source passes its exceptions through untouched.
- A `MIDDLEWARE` value that is not a list of strings is left out. It is modelled as `seq<string>`.
- The URL router and its 404 responses are left out. They are the next handler's behaviour, and the tests' 404s appear only as "the next handler's response".
- Concurrency and reloading are left out. The watched set is an immutable value of the constructed `AliveCheck`, so nothing can change it after construction.
