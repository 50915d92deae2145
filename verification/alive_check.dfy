/** `AliveCheck`: the interceptor, constructed once with the next handler
    of the chain, answering probes and delegating everything else. */
module AliveCheckMiddleware {
  import opened Logging
  import opened Settings
  import Urls
  import Position

  /** What the interceptor reads of a request: its HTTP method (`verb`, as
      `method` is a keyword here) and its path. */
  datatype Request = Request(verb: string, path: string)

  /** A response: status code, content type and body. */
  datatype Response = Response(status: int, contentType: string, body: string)

  /** The fixed answer to a probe. */
  const AliveResponse: Response := Response(200, "text/plain", "200 OK\n")

  /** An installed interceptor: the next handler it delegates to and the
      watched paths, fixed at construction. */
  datatype AliveCheck = AliveCheck(next: Request -> Response, urls: set<string>)

  /** How a request was handled: answered by the interceptor, or handed to
      the next handler (recording the request it received) with the
      response that handler produced. */
  datatype Outcome =
    | Intercepted(resp: Response)
    | Delegated(forwarded: Request, resp: Response)

  /** `infos` announces each URL of `urls` exactly once, in some order. */
  ghost predicate AnnouncesEach(infos: seq<LogEvent>, urls: set<string>) {
    && |infos| == |urls|
    && (forall k :: 0 <= k < |infos| ==>
          infos[k].level == Info && infos[k].msg.Intercepting? && infos[k].msg.url in urls)
    && (forall u :: u in urls ==> LogEvent(Info, Intercepting(u)) in infos)
    && (forall i, j :: 0 <= i < j < |infos| ==> infos[i] != infos[j])
  }

  /** The `for url in self.urls` loop of `__init__`: one info event per
      watched URL, in the (unspecified) iteration order of the set. */
  method Announce(urls: set<string>) returns (infos: seq<LogEvent>)
    ensures AnnouncesEach(infos, urls)
  {
    infos := [];
    var rest := urls;
    while rest != {}
      invariant rest <= urls
      invariant |infos| + |rest| == |urls|
      invariant forall k :: 0 <= k < |infos| ==>
                  infos[k].level == Info && infos[k].msg.Intercepting? &&
                  infos[k].msg.url in urls - rest
      invariant forall u :: u in urls - rest ==> LogEvent(Info, Intercepting(u)) in infos
      invariant forall i, j :: 0 <= i < j < |infos| ==> infos[i] != infos[j]
      decreases rest
    {
      var u :| u in rest;
      infos := infos + [LogEvent(Info, Intercepting(u))];
      rest := rest - {u};
    }
  }

  /** `log` is `pre` followed by the single "no URLs" error when `urls` is
      empty, and by one announcement per URL otherwise. */
  ghost predicate InitLog(pre: seq<LogEvent>, urls: set<string>, log: seq<LogEvent>) {
    && |pre| <= |log| && log[..|pre|] == pre
    && (urls == {} ==> log[|pre|..] == [LogEvent(Error, NoUrls)])
    && (urls != {} ==> AnnouncesEach(log[|pre|..], urls))
  }

  /** `AliveCheck.__init__`: run the position check, resolve the URLs, then
      log one error if there are none and one info event per URL. The order
      of the info events is the iteration order of a Python set, left open
      here. Construction never fails. */
  method Construct(cfg: Config, next: Request -> Response) returns (mw: AliveCheck, log: seq<LogEvent>)
    ensures mw.next == next
    ensures mw.urls == Urls.ResolveUrls(cfg.alivenessUrl).urls
    ensures InitLog(Position.CheckPosition(cfg.middleware) + Urls.ResolveUrls(cfg.alivenessUrl).log,
                    mw.urls, log)
    ensures CountAt(log, Error) == (if mw.urls == {} then 1 else 0)
    ensures CountAt(log, Info) == |mw.urls|
  {
    var resolved := Urls.ResolveUrls(cfg.alivenessUrl);
    var pre := Position.CheckPosition(cfg.middleware) + resolved.log;
    var infos := Announce(resolved.urls);
    var tail := if resolved.urls == {} then [LogEvent(Error, NoUrls)] else infos;
    log := pre + tail;
    assert log[..|pre|] == pre;
    assert log[|pre|..] == tail;
    mw := AliveCheck(next, resolved.urls);
    CountAtAppend(pre, tail, Error);
    CountAtAppend(pre, tail, Info);
    TailCounts(tail, mw.urls);
    PreCounts(pre);
  }

  lemma {:induction false} TailCounts(tail: seq<LogEvent>, urls: set<string>)
    requires urls == {} ==> tail == [LogEvent(Error, NoUrls)]
    requires urls != {} ==> AnnouncesEach(tail, urls)
    ensures CountAt(tail, Error) == (if urls == {} then 1 else 0)
    ensures CountAt(tail, Info) == |urls|
  {
    if urls != {} {
      AllAtCount(tail, Info);
    }
  }

  lemma {:induction false} AllAtCount(log: seq<LogEvent>, level: Level)
    requires forall k :: 0 <= k < |log| ==> log[k].level == level
    ensures CountAt(log, level) == |log|
  {
    if log != [] {
      AllAtCount(log[1..], level);
    }
  }

  lemma PreCounts(pre: seq<LogEvent>)
    requires forall k :: 0 <= k < |pre| ==> pre[k].level == Debug || pre[k].level == Warning
    ensures CountAt(pre, Error) == 0 && CountAt(pre, Info) == 0
  {
  }

  /** `AliveCheck.__call__`. */
  function Call(mw: AliveCheck, req: Request): (o: Outcome)
    ensures o.Intercepted? <==> req.verb == "GET" && req.path in mw.urls
    ensures o.Intercepted? ==> o.resp == AliveResponse
    ensures o.Delegated? ==> o.forwarded == req && o.resp == mw.next(req)
  {
    if req.verb == "GET" && req.path in mw.urls then Intercepted(AliveResponse)
    else Delegated(req, mw.next(req))
  }

  /** The interceptor an `ALIVENESS_URL` setting installs in front of `next`. */
  function Installed(s: Setting, next: Request -> Response): AliveCheck {
    AliveCheck(next, Urls.ResolveUrls(s).urls)
  }

  /** End to end: an interceptor watching what setting `s` resolves to, such
      as the one `Construct` returns, answers a request with the probe
      response exactly when it is a GET whose path the setting names as a
      string; otherwise the next handler gets the request unchanged and its
      response is returned unchanged. */
  lemma DispatchBySetting(s: Setting, mw: AliveCheck, req: Request)
    requires mw.urls == Urls.ResolveUrls(s).urls
    ensures Call(mw, req) ==
              if req.verb == "GET" && Names(s, req.path) then Intercepted(AliveResponse)
              else Delegated(req, mw.next(req))
  {
    Urls.ResolvedExactlyNamed(s, req.path);
  }

  /** Only the exact method `GET` is answered: any other method, `POST` or
      a lower-case `get` among them, always reaches the next handler. */
  lemma OnlyGetIntercepted(mw: AliveCheck, req: Request)
    requires req.verb != "GET"
    ensures Call(mw, req) == Delegated(req, mw.next(req))
  {
  }
}
