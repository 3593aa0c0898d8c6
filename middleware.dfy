/** The request rate limiter of src/middleware.ts: a fixed window per key,
    kept in a process-wide map, and the middleware that picks the key and
    the limit from the request. The clock is a parameter. */
module Middleware {
  import opened Wrappers
  import opened Text

  const WindowMs := 60000
  const UploadLimit := 10
  const ApiLimit := 20
  const LimitedError := "Rate limit exceeded. Please try again later."

  /** One key's window: requests counted so far and when the window ends. */
  datatype Window = Window(count: nat, resetAt: int)

  /** What `getInMemoryRateLimit` reports. */
  datatype Verdict = Verdict(allowed: bool, remaining: int, resetAt: int)

  /** No window yet, or the window has passed; `now == resetAt` is still inside. */
  predicate Expired(entry: Option<Window>, now: int) {
    entry.None? || now > entry.value.resetAt
  }

  /** One request at time `now`: the key's new window and the verdict. */
  function Admit(entry: Option<Window>, limit: nat, windowMs: nat, now: int): (r: (Window, Verdict))
    ensures Expired(entry, now) ==>
      r.0 == Window(1, now + windowMs) && r.1 == Verdict(true, limit - 1, now + windowMs)
    ensures !Expired(entry, now) ==>
      && r.0 == Window(entry.value.count + 1, entry.value.resetAt)
      && r.1.resetAt == entry.value.resetAt
      && r.1.remaining == (if limit >= r.0.count then limit - r.0.count else 0)
    ensures limit >= 1 ==> (r.1.allowed <==> r.0.count <= limit)
    ensures limit >= 1 ==> r.1.remaining >= 0
    ensures r.1.resetAt == r.0.resetAt
  {
    if Expired(entry, now) then
      (Window(1, now + windowMs), Verdict(true, limit - 1, now + windowMs))
    else
      var count := entry.value.count + 1;
      (Window(count, entry.value.resetAt), Verdict(count <= limit, Max(0, limit - count), entry.value.resetAt))
  }

  function Max(a: int, b: int): int {
    if a >= b then a else b
  }

  /** The window after requests at the given times, one after another. */
  function Replay(entry: Option<Window>, limit: nat, windowMs: nat, times: seq<int>): Option<Window>
    decreases |times|
  {
    if times == [] then entry
    else Replay(Some(Admit(entry, limit, windowMs, times[0]).0), limit, windowMs, times[1..])
  }

  /** Requests that all fall inside one window started by the first of them
      are counted one each; so of those, only the first `limit` are allowed. */
  lemma {:induction false} WindowCountsRequests(entry: Option<Window>, limit: nat, windowMs: nat, times: seq<int>)
    requires |times| >= 1 && Expired(entry, times[0])
    requires forall i :: 0 <= i < |times| ==> times[i] <= times[0] + windowMs
    ensures Replay(entry, limit, windowMs, times) == Some(Window(|times|, times[0] + windowMs))
  {
    var w := Admit(entry, limit, windowMs, times[0]).0;
    assert w == Window(1, times[0] + windowMs);
    InsideWindow(w, limit, windowMs, times[1..]);
  }

  /** Within one window the k-th request (counting from zero) is allowed
      exactly when fewer than `limit` came before it. */
  lemma NthRequestAllowed(entry: Option<Window>, limit: nat, windowMs: nat, times: seq<int>, k: nat)
    requires limit >= 1 && k < |times| && Expired(entry, times[0])
    requires forall i :: 0 <= i < |times| ==> times[i] <= times[0] + windowMs
    ensures Admit(Replay(entry, limit, windowMs, times[..k]), limit, windowMs, times[k]).1.allowed <==> k < limit
  {
    if k > 0 {
      WindowCountsRequests(entry, limit, windowMs, times[..k]);
    }
  }

  lemma {:induction false} InsideWindow(w: Window, limit: nat, windowMs: nat, times: seq<int>)
    requires forall i :: 0 <= i < |times| ==> times[i] <= w.resetAt
    ensures Replay(Some(w), limit, windowMs, times) == Some(Window(w.count + |times|, w.resetAt))
    decreases |times|
  {
    if times != [] {
      var next := Admit(Some(w), limit, windowMs, times[0]).0;
      assert next == Window(w.count + 1, w.resetAt);
      InsideWindow(next, limit, windowMs, times[1..]);
    }
  }

  /** The limiter's state: the map from key to window. */
  class RateLimiter {
    var windows: map<string, Window>

    constructor()
      ensures windows == map[]
    {
      windows := map[];
    }

    /** `getInMemoryRateLimit(key, limit, windowMs)` at time `now`. */
    method Check(key: string, limit: nat, windowMs: nat, now: int) returns (v: Verdict)
      modifies this
      ensures var r := Admit(if key in old(windows) then Some(old(windows)[key]) else None, limit, windowMs, now);
        windows == old(windows)[key := r.0] && v == r.1
    {
      var entry := if key in windows then Some(windows[key]) else None;
      if entry.None? || now > entry.value.resetAt {
        windows := windows[key := Window(1, now + windowMs)];
        return Verdict(true, limit - 1, now + windowMs);
      }
      var w := entry.value.(count := entry.value.count + 1);
      windows := windows[key := w];
      v := Verdict(w.count <= limit, Max(0, limit - w.count), w.resetAt);
    }

    /** `middleware(request)`, given the path, the two address headers and the
        clock at the check (`now`) and when the answer is built (`later`). */
    method Handle(path: string, headers: AddressHeaders, now: int, later: int) returns (o: Outcome)
      modifies this
      ensures !StartsWith(path, "/api/") ==> o == PassThrough && windows == old(windows)
      ensures StartsWith(path, "/api/") ==>
        var key := RouteKey(ClientIp(headers), path);
        var r := Admit(if key in old(windows) then Some(old(windows)[key]) else None, LimitFor(path), WindowMs, now);
        && windows == old(windows)[key := r.0]
        && o == (if r.1.allowed then Forwarded(r.1.remaining) else Limited(CeilDiv(r.1.resetAt - later, 1000)))
    {
      if !StartsWith(path, "/api/") {
        return PassThrough;
      }
      var ip := ClientIp(headers);
      var limit := LimitFor(path);
      var key := RouteKey(ip, path);
      var result := Check(key, limit, WindowMs, now);
      if !result.allowed {
        return Limited(CeilDiv(result.resetAt - later, 1000));
      }
      o := Forwarded(result.remaining);
    }
  }

  /** The two request headers the client address is read from; `None` is absent. */
  datatype AddressHeaders = AddressHeaders(forwardedFor: Option<string>, realIp: Option<string>)

  /** What the middleware answers: not an API path, refused with a
      Retry-After in seconds, or forwarded with the remaining allowance. */
  datatype Outcome = PassThrough | Limited(retryAfter: int) | Forwarded(remaining: int)

  /** The first comma-separated entry of `x-forwarded-for`, trimmed; else
      `x-real-ip`; else "unknown". Empty strings count as absent. */
  function ClientIp(h: AddressHeaders): (ip: string)
    ensures ip != ""
  {
    var first := if h.forwardedFor.Some? then Trim(Split(h.forwardedFor.value, ',')[0]) else "";
    if first != "" then first
    else if h.realIp.Some? && h.realIp.value != "" then h.realIp.value
    else "unknown"
  }

  /** Uploads get the smaller allowance. */
  function LimitFor(path: string): nat {
    if StartsWith(path, "/api/upload") then UploadLimit else ApiLimit
  }

  /** The first three `/`-separated pieces of the path, rejoined. */
  function RoutePrefix(path: string): string {
    var parts := Split(path, '/');
    Join(parts[..if |parts| < 3 then |parts| else 3], "/")
  }

  /** `${ip}:${route}`. */
  function RouteKey(ip: string, path: string): string {
    ip + ":" + RoutePrefix(path)
  }

  /** `Math.ceil(x / d)` for a positive divisor. */
  function CeilDiv(x: int, d: nat): (q: int)
    requires d > 0
    ensures (q - 1) * d < x <= q * d
  {
    -((-x) / d)
  }

  /** Every path under one API route shares that route's window: the key
      keeps only `/api/<route>`. */
  lemma RouteKeyKeepsRoute(ip: string, route: string, rest: string)
    requires '/' !in route
    ensures RouteKey(ip, "/api/" + route + "/" + rest) == ip + ":/api/" + route
  {
    var path := "/api/" + route + "/" + rest;
    var parts := Split(path, '/');
    LeadingPieces(route, rest);
    assert parts[..3] == ["", "api", route];
    JoinThree(route);
  }

  lemma LeadingPieces(route: string, rest: string)
    requires '/' !in route
    ensures |Split("/api/" + route + "/" + rest, '/')| >= 3
    ensures Split("/api/" + route + "/" + rest, '/')[..3] == ["", "api", route]
  {
    var tail := route + ['/'] + rest;
    assert "/api/" + route + "/" + rest == "" + ['/'] + ("api" + ['/'] + tail);
    SplitAt("", '/', "api" + ['/'] + tail);
    SplitAt("api", '/', tail);
    SplitAt(route, '/', rest);
    assert Split("/api/" + route + "/" + rest, '/') == [""] + ([ "api"] + ([route] + Split(rest, '/')));
  }

  lemma JoinThree(route: string)
    ensures Join(["", "api", route], "/") == "/api/" + route
  {
    var three := ["", "api", route];
    assert three[1..] == ["api", route] && three[1..][1..] == [route];
    assert Join([route], "/") == route;
    assert Join(["api", route], "/") == "api" + "/" + route;
  }

  /** The upload limit applies exactly to paths starting with `/api/upload`. */
  lemma UploadPathsLimitedHarder(path: string)
    ensures LimitFor(path) == 10 <==> StartsWith(path, "/api/upload")
    ensures LimitFor(path) == 20 <==> !StartsWith(path, "/api/upload")
  {
  }
}
