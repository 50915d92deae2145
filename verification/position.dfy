/** `_get_middleware` and `_check_middleware_position`: warning, never
    failing, when the interceptor is missing from `MIDDLEWARE` or is listed
    after a stage it has to precede. */
module Position {
  import opened Optional
  import opened Logging
  import opened Identity

  /** Python's `list.index`: the position of the FIRST occurrence of `x`,
      or `None` where Python raises `ValueError`. */
  function FirstIndex(xs: seq<string>, x: string): (r: Option<nat>)
    ensures r.None? <==> x !in xs
    ensures r.Some? ==>
              r.value < |xs| && xs[r.value] == x && forall j :: 0 <= j < r.value ==> xs[j] != x
  {
    if xs == [] then None
    else if xs[0] == x then Some(0)
    else match FirstIndex(xs[1..], x)
      case None => None
      case Some(i) => Some(i + 1)
  }

  /** `a` is listed, and listed before any occurrence of `b`, which is
      listed too: the order relation the position check cares about, stated
      without `list.index`. */
  ghost predicate Ahead(xs: seq<string>, a: string, b: string) {
    b in xs && exists i :: 0 <= i < |xs| && xs[i] == a && b !in xs[..i + 1]
  }

  /** Comparing first indices, as the source does, decides `Ahead`. */
  lemma AheadIffFirstIndexLess(xs: seq<string>, a: string, b: string)
    ensures Ahead(xs, a, b) <==>
              FirstIndex(xs, a).Some? && FirstIndex(xs, b).Some? &&
              FirstIndex(xs, a).value < FirstIndex(xs, b).value
  {
  }

  /** The configured list, `[]` when `MIDDLEWARE` is not defined. */
  function Listed(setting: Option<seq<string>>): seq<string> {
    match setting
    case Some(list) => list
    case None => []
  }

  /** `_get_middleware()`: the configured list, or `[]` with a debug event
      when `MIDDLEWARE` is not defined. */
  function GetMiddleware(setting: Option<seq<string>>): (r: (seq<string>, seq<LogEvent>))
    ensures r.0 == Listed(setting)
    ensures setting.Some? ==> r.0 == setting.value && r.1 == []
    ensures setting.None? ==> r.0 == [] && r.1 == [LogEvent(Debug, MiddlewareNotDefined)]
  {
    match setting
    case Some(list) => (list, [])
    case None => ([], [LogEvent(Debug, MiddlewareNotDefined)])
  }

  /** The ordering warning for stage `name`. */
  function Misordered(name: string): LogEvent {
    Warn(MustAboveBeforeSelf(name, ImportName()))
  }

  /** The `for name in MUST_ABOVE` loop, for the interceptor at position
      `me`: a stage that is not installed gives a debug event, a stage whose
      first position is below `me` gives an ordering warning, and any other
      stage gives nothing. */
  function CheckOrder(middleware: seq<string>, names: seq<string>, me: nat): (log: seq<LogEvent>)
    ensures |log| <= |names|
    ensures forall n :: Misordered(n) in log <==>
              n in names && n in middleware && FirstIndex(middleware, n).value < me
    ensures LogEvent(Debug, MustAboveNotInMiddleware) in log <==>
              exists k :: 0 <= k < |names| && names[k] !in middleware
    ensures forall k :: 0 <= k < |log| ==>
              log[k] == LogEvent(Debug, MustAboveNotInMiddleware) ||
              (log[k].msg.MustAboveBeforeSelf? && log[k] == Misordered(log[k].msg.name))
  {
    if names == [] then []
    else
      var here :=
        match FirstIndex(middleware, names[0])
        case None => [LogEvent(Debug, MustAboveNotInMiddleware)]
        case Some(pos) => if pos < me then [Misordered(names[0])] else [];
      here + CheckOrder(middleware, names[1..], me)
  }

  /** `_check_middleware_position()`. */
  function CheckPosition(setting: Option<seq<string>>): (log: seq<LogEvent>)
    ensures setting.None? ==>
              log == [LogEvent(Debug, MiddlewareNotDefined), Warn(SelfNotInMiddleware)]
    ensures ImportName() !in Listed(setting) ==>
              log == GetMiddleware(setting).1 + [Warn(SelfNotInMiddleware)]
    ensures ImportName() in Listed(setting) ==>
              (LogEvent(Debug, MustAboveNotInMiddleware) in log <==> CommonMiddleware !in Listed(setting))
    ensures forall k :: 0 <= k < |log| ==> log[k].level == Debug || log[k].level == Warning
  {
    var (middleware, log) := GetMiddleware(setting);
    match FirstIndex(middleware, ImportName())
    case None => log + [Warn(SelfNotInMiddleware)]
    case Some(me) => log + CheckOrder(middleware, MustAbove, me)
  }

  /** The interceptor warns that it is missing exactly when its import name
      is not listed. */
  lemma SelfMissingWarned(setting: Option<seq<string>>)
    ensures Warn(SelfNotInMiddleware) in CheckPosition(setting) <==>
              ImportName() !in Listed(setting)
  {
  }

  /** With the interceptor listed, the check logs at most one event: the
      debug event for the one `MUST_ABOVE` stage when it is not installed,
      or the ordering warning for it. Nothing else is ever logged. */
  lemma ListedLogsAtMostOne(setting: Option<seq<string>>)
    ensures ImportName() in Listed(setting) ==>
              CheckPosition(setting) == [] ||
              CheckPosition(setting) == [LogEvent(Debug, MustAboveNotInMiddleware)] ||
              CheckPosition(setting) == [Misordered(CommonMiddleware)]
  {
  }

  /** The ordering rule: an ordering warning names stage `n` exactly when
      `n` is a `MUST_ABOVE` stage listed ahead of the interceptor. No
      ordering warning at all is emitted when the interceptor is not listed. */
  lemma OrderingWarnedIffAhead(setting: Option<seq<string>>, n: string)
    ensures Misordered(n) in CheckPosition(setting) <==>
              n in MustAbove && Ahead(Listed(setting), n, ImportName())
  {
    var mw := Listed(setting);
    AheadIffFirstIndexLess(mw, n, ImportName());
  }
}
