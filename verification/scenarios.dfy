/** Concrete configurations: the cases the repository's tests exercise and
    the `MIDDLEWARE` list of its example project. */
module Scenarios {
  import opened Optional
  import opened Logging
  import opened Settings
  import opened Identity
  import opened Urls
  import opened Position
  import opened AliveCheckMiddleware

  const HealthCheck: string := "/health-check/"

  /** The example project's `MIDDLEWARE`: the interceptor right below the
      security middleware and above the common middleware. */
  const ExampleMiddleware: seq<string> := [
    "django.middleware.security.SecurityMiddleware",
    "lb_health_check.middleware.AliveCheck",
    "django.contrib.sessions.middleware.SessionMiddleware",
    "django.middleware.common.CommonMiddleware",
    "django.middleware.csrf.CsrfViewMiddleware",
    "django.contrib.auth.middleware.AuthenticationMiddleware",
    "django.contrib.messages.middleware.MessageMiddleware",
    "django.middleware.clickjacking.XFrameOptionsMiddleware"
  ]

  /** The import name is exactly the entry the example lists, and the
      example ordering draws no diagnostic at all. */
  lemma ExampleOrderingAccepted()
    ensures FirstIndex(ExampleMiddleware, ImportName()) == Some(1)
    ensures CheckPosition(Some(ExampleMiddleware)) == []
  {
    assert ExampleMiddleware[0] != ImportName();
    assert ExampleMiddleware[1] == ImportName();
    assert FirstIndex(ExampleMiddleware[1..], ImportName()) == Some(0);
    assert FirstIndex(ExampleMiddleware, CommonMiddleware) == Some(3) by {
      assert ExampleMiddleware[3] == CommonMiddleware;
      assert CommonMiddleware !in ExampleMiddleware[..3];
    }
  }

  /** The common middleware listed above the interceptor draws one warning
      naming both stages; listed below it, none. */
  lemma OrderingWarnings()
    ensures CheckPosition(Some([CommonMiddleware, ImportName()])) ==
              [Warn(MustAboveBeforeSelf(CommonMiddleware, ImportName()))]
    ensures CheckPosition(Some([ImportName(), CommonMiddleware])) == []
  {
    assert [CommonMiddleware, ImportName()][1..] == [ImportName()];
    assert [ImportName(), CommonMiddleware][1..] == [CommonMiddleware];
  }

  /** Without `ALIVENESS_URL` no URL is watched and the one diagnostic is
      the warning that it is not set (construction then adds the error that
      the check is disabled). */
  lemma AbsentSettingDisables()
    ensures ResolveUrls(Absent) == Resolution({}, [Warn(UrlNotSet)])
  {
  }

  /** `test_str`, `test_set`, `test_list`: a GET to the configured path is
      answered with 200, whichever shape names it. */
  lemma ConfiguredPathAnswered(next: Request -> Response)
    ensures Call(Installed(Str(HealthCheck), next), Request("GET", HealthCheck)).resp.status == 200
    ensures Call(Installed(Coll([S(HealthCheck)]), next), Request("GET", HealthCheck)).resp.status == 200
  {
  }

  /** `test_none` and `test_other_url`: with an explicit `None`, or for a
      path that is not configured, the response is the next handler's (a 404
      from the router in the tests). */
  lemma UnconfiguredPathDelegated(next: Request -> Response)
    ensures Call(Installed(Null, next), Request("GET", HealthCheck)) ==
              Delegated(Request("GET", HealthCheck), next(Request("GET", HealthCheck)))
    ensures Call(Installed(Str(HealthCheck), next), Request("GET", "/i-like-pie/")) ==
              Delegated(Request("GET", "/i-like-pie/"), next(Request("GET", "/i-like-pie/")))
  {
  }

  /** A non-string element is skipped with one warning naming it; a value
      of another type leaves no URL and one warning naming it. */
  lemma MalformedSettings()
    ensures ResolveUrls(Coll([NonStr("15"), S(HealthCheck)])) ==
              Resolution({HealthCheck}, [Warn(UrlItemNotString("15"))])
    ensures ResolveUrls(Other("15")) == Resolution({}, [Warn(UrlBadType("15"))])
  {
    var items := [NonStr("15"), S(HealthCheck)];
    assert items[1..] == [S(HealthCheck)];
    assert CollectStrings(items[1..]) == Resolution({HealthCheck}, []) by {
      assert [S(HealthCheck)][1..] == [];
      assert {HealthCheck} + {} == {HealthCheck};
    }
  }
}
