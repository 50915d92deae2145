/** Diagnostics of the aliveness interceptor.

    The interceptor never raises: every anomaly is reported through Python's
    `logging` module. The model returns the emitted records as a sequence of
    events, each a severity and a message tag. The tag names which message
    was logged and carries the values interpolated into it; the exact
    `%s`-formatted text is not modelled. */
module Logging {

  datatype Level = Debug | Info | Warning | Error

  datatype Message =
    /** `ALIVENESS_URL` is not defined at all. */
    | UrlNotSet
    /** An element of a list or set `ALIVENESS_URL` is not a string. */
    | UrlItemNotString(item: string)
    /** `ALIVENESS_URL` has a shape other than None, str, list or set. */
    | UrlBadType(value: string)
    /** `MIDDLEWARE` is not defined at all. */
    | MiddlewareNotDefined
    /** The interceptor's own import name is not in `MIDDLEWARE`. */
    | SelfNotInMiddleware
    /** A must-be-below stage is not installed (the message names nothing). */
    | MustAboveNotInMiddleware
    /** Stage `name` runs before the interceptor `self`. */
    | MustAboveBeforeSelf(name: string, self: string)
    /** Resolution produced no URL, so the check never answers. */
    | NoUrls
    /** GET requests to `url` will be answered by the interceptor. */
    | Intercepting(url: string)

  datatype LogEvent = LogEvent(level: Level, msg: Message)

  function Warn(m: Message): LogEvent { LogEvent(Warning, m) }

  /** No event in `log` is at `level`. */
  predicate NoneAt(log: seq<LogEvent>, level: Level) {
    forall k :: 0 <= k < |log| ==> log[k].level != level
  }

  /** Number of events in `log` at `level`. */
  function CountAt(log: seq<LogEvent>, level: Level): (n: nat)
    ensures n <= |log|
    ensures n == 0 <==> NoneAt(log, level)
  {
    if log == [] then 0
    else (if log[0].level == level then 1 else 0) + CountAt(log[1..], level)
  }

  lemma {:induction false} CountAtAppend(a: seq<LogEvent>, b: seq<LogEvent>, level: Level)
    ensures CountAt(a + b, level) == CountAt(a, level) + CountAt(b, level)
  {
    if a == [] {
      assert a + b == b;
    } else {
      assert (a + b)[1..] == a[1..] + b;
      CountAtAppend(a[1..], b, level);
    }
  }
}
