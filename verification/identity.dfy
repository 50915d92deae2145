/** Names the interceptor is known by, and the stages it must run before. */
module Identity {

  /** `AliveCheck.__module__` and `AliveCheck.__name__`. */
  const ModuleName: string := "lb_health_check.middleware"
  const ClassName: string := "AliveCheck"

  /** `COMMON_MIDDLWARE`: Django's common middleware, which validates the
      Host header and would reject a probe sent to a bare address. */
  const CommonMiddleware: string := "django.middleware.common.CommonMiddleware"

  /** `MUST_ABOVE`: the stages the interceptor has to precede. */
  const MustAbove: seq<string> := [CommonMiddleware]

  /** `AliveCheck.get_import_name()`: the dotted path under which the
      interceptor is listed in `MIDDLEWARE`. It does not depend on the
      instance or on any setting. */
  function ImportName(): (r: string)
    ensures r == ModuleName + "." + ClassName
    ensures r !in MustAbove
  {
    "lb_health_check.middleware.AliveCheck"
  }
}
