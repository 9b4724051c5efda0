/**
 * The HTTP middlewares that carry state: the request-id middleware, the
 * request-id lookup, and the per-client-IP rate limiter with its 429 reply.
 * The request context is a class whose keys and response the middlewares
 * update in place; the token bucket's own verdict is an input.
 */
module Middleware {
  import opened Base

  const RequestIDHeader: string := "X-Request-ID"
  const RequestIDKey: string := "request_id"
  const RateLimitExceededText: string := "Rate limit exceeded"

  /** A value stored under a context key: a string, or a value of any other type. */
  datatype Value = Str(s: string) | Other

  /** A JSON error body carrying the request id. */
  datatype ErrorBody = ErrorBody(error: string, requestId: string)

  /** The part of a request context the middlewares read and write. */
  class Context {
    const requestHeaders: map<string, string>
    var keys: map<string, Value>
    var responseHeaders: map<string, string>
    var status: Option<int>
    var body: Option<ErrorBody>
    var aborted: bool
    /** Whether the rest of the handler chain ran. */
    var nextRan: bool

    constructor (requestHeaders: map<string, string>)
      ensures this.requestHeaders == requestHeaders
      ensures keys == map[] && responseHeaders == map[]
      ensures status.None? && body.None? && !aborted && !nextRan
    {
      this.requestHeaders := requestHeaders;
      keys := map[];
      responseHeaders := map[];
      status := None;
      body := None;
      aborted := false;
      nextRan := false;
    }

    /** A request header, "" when absent. */
    function GetHeader(name: string): (v: string)
      ensures name in requestHeaders ==> v == requestHeaders[name]
      ensures name !in requestHeaders ==> v == ""
    {
      if name in requestHeaders then requestHeaders[name] else ""
    }

    /** The request id stored in the context; "" when the key is missing or holds no string. */
    function GetRequestID(): (id: string)
      reads this
      ensures RequestIDKey in keys && keys[RequestIDKey].Str? ==> id == keys[RequestIDKey].s
      ensures RequestIDKey !in keys || keys[RequestIDKey].Other? ==> id == ""
    {
      if RequestIDKey in keys then
        match keys[RequestIDKey]
        case Str(s) => s
        case Other => ""
      else ""
    }

    /** The request id a request is served under: its own non-empty X-Request-ID, else the generated one. */
    function ChosenRequestID(generated: string): (id: string)
      ensures GetHeader(RequestIDHeader) != "" ==> id == GetHeader(RequestIDHeader)
      ensures GetHeader(RequestIDHeader) == "" ==> id == generated
      ensures generated != "" ==> id != ""
    {
      if GetHeader(RequestIDHeader) != "" then GetHeader(RequestIDHeader) else generated
    }

    /**
     * The request-id middleware: the chosen id is stored under request_id,
     * echoed as X-Request-ID on the response, and the chain continues.
     * `generated` stands for a freshly generated UUID.
     */
    method RequestID(generated: string)
      requires generated != ""
      modifies this
      ensures keys == old(keys)[RequestIDKey := Str(ChosenRequestID(generated))]
      ensures responseHeaders == old(responseHeaders)[RequestIDHeader := ChosenRequestID(generated)]
      ensures GetRequestID() == ChosenRequestID(generated) && GetRequestID() != ""
      ensures nextRan
      ensures status == old(status) && body == old(body) && aborted == old(aborted)
    {
      var requestID := GetHeader(RequestIDHeader);
      if requestID == "" {
        requestID := generated;
      }
      keys := keys[RequestIDKey := Str(requestID)];
      responseHeaders := responseHeaders[RequestIDHeader := requestID];
      nextRan := true;
    }
  }

  /** A token-bucket limiter; only its identity and settings matter here. */
  class Limiter {
    const limit: int
    const burst: int

    constructor (limit: int, burst: int)
      ensures this.limit == limit && this.burst == burst
    {
      this.limit := limit;
      this.burst := burst;
    }
  }

  /** One limiter per client IP, created on first sight with the shared settings. */
  class IPRateLimiter {
    var limiters: map<string, Limiter>
    const limit: int
    const burst: int

    constructor (limit: int, burst: int)
      ensures this.limit == limit && this.burst == burst && limiters == map[]
    {
      this.limit := limit;
      this.burst := burst;
      limiters := map[];
    }

    /**
     * The limiter of `ip`: the stored one, or a new limiter with the shared
     * settings that is stored for the next call. No other entry changes.
     */
    method GetLimiter(ip: string) returns (l: Limiter)
      modifies this
      ensures ip in old(limiters) ==> l == old(limiters)[ip] && limiters == old(limiters)
      ensures ip !in old(limiters) ==>
                && fresh(l) && l.limit == limit && l.burst == burst
                && limiters == old(limiters)[ip := l]
      ensures ip in limiters && limiters[ip] == l
      ensures limiters.Keys == old(limiters).Keys + {ip}
      ensures forall other :: other in old(limiters) ==> other in limiters && limiters[other] == old(limiters)[other]
    {
      if ip in limiters {
        l := limiters[ip];
      } else {
        l := new Limiter(limit, burst);
        limiters := limiters[ip := l];
      }
    }
  }

  /**
   * The rate-limit middleware for a request from `ip`. `allow` is the
   * verdict of the IP's limiter: when it refuses, the request is aborted with
   * 429 and the request id, and the chain does not continue.
   */
  method RateLimit(rl: IPRateLimiter, c: Context, ip: string, allow: Limiter -> bool)
    returns (l: Limiter)
    requires c.status.None? && !c.aborted && !c.nextRan
    modifies rl, c
    ensures ip in old(rl.limiters) ==> l == old(rl.limiters)[ip] && rl.limiters == old(rl.limiters)
    ensures ip !in old(rl.limiters) ==> fresh(l) && rl.limiters == old(rl.limiters)[ip := l]
    ensures !allow(l) ==>
              && c.aborted && !c.nextRan && c.status == Some(429)
              && c.body == Some(ErrorBody(RateLimitExceededText, c.GetRequestID()))
    ensures allow(l) ==> c.nextRan && !c.aborted && c.status.None? && c.body == old(c.body)
    ensures c.keys == old(c.keys) && c.responseHeaders == old(c.responseHeaders)
  {
    l := rl.GetLimiter(ip);
    if !allow(l) {
      var reqID := c.GetRequestID();
      c.status := Some(429);
      c.body := Some(ErrorBody(RateLimitExceededText, reqID));
      c.aborted := true;
      return;
    }
    c.nextRan := true;
  }

  /** The two shared limiters: matches at 10 requests a second with bursts of 20, exports at 1 with bursts of 3. */
  method NewLimiters() returns (matches: IPRateLimiter, exports: IPRateLimiter)
    ensures fresh(matches) && fresh(exports) && matches != exports
    ensures matches.limit == 10 && matches.burst == 20 && matches.limiters == map[]
    ensures exports.limit == 1 && exports.burst == 3 && exports.limiters == map[]
  {
    matches := new IPRateLimiter(10, 20);
    exports := new IPRateLimiter(1, 3);
  }
}
