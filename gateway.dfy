/**
 * The HTTP side of the service (rickroll/service/main.go): the start-up check
 * on the recipient address and the payment configuration it produces, and the
 * handler tree put in front of the payment middleware. That tree is
 * "/health" answered directly, everything else through the CORS handler,
 * which hands non-preflight requests to the logging handler, which calls the
 * payment middleware through a writer that records the status.
 */
module Gateway {
  import opened Wrappers
  import opened Http
  import Handler

  /* ---------- start-up ---------- */

  /** The command-line flags. */
  datatype Flags = Flags(grpcPort: int, httpPort: int, facilitatorUrl: string, recipientAddress: string)

  const DefaultGrpcPort: int := 9090
  const DefaultHttpPort: int := 8080
  const DefaultFacilitatorUrl: string := "https://facilitator.x402.org"

  /** The flags as parsed from an empty command line: the recipient has no default. */
  function DefaultFlags(): Flags
  {
    Flags(DefaultGrpcPort, DefaultHttpPort, DefaultFacilitatorUrl, "")
  }

  datatype TokenRequirement = TokenRequirement(
    network: string,
    assetContract: string,
    symbol: string,
    recipient: string,
    tokenName: string,
    tokenDecimals: nat)

  datatype PricingRule = PricingRule(amount: string, description: string, acceptedTokens: seq<TokenRequirement>)

  /** The configuration handed to the x402 middleware; the verifier is named by its facilitator URL. */
  datatype PaymentConfig = PaymentConfig(
    facilitatorUrl: string,
    endpointPricing: map<string, PricingRule>,
    skipPaths: seq<string>,
    validitySeconds: nat)

  datatype StartupError = MissingRecipientAddress

  const PaidPath: string := "/v1/rickroll"
  const InfoPath: string := "/v1/info"
  const HealthPath: string := "/health"

  /**
   * The x402 configuration startHTTPGateway builds: one priced endpoint that
   * accepts USDC on Arbitrum One paid to the recipient, two exempt paths and
   * a five-minute validity window for payment proofs.
   */
  function PaymentConfigFor(f: Flags): (c: PaymentConfig)
    ensures c.endpointPricing.Keys == {PaidPath}
    ensures c.endpointPricing[PaidPath].amount == "0.01"
    ensures |c.endpointPricing[PaidPath].acceptedTokens| == 1
    ensures c.endpointPricing[PaidPath].acceptedTokens[0].recipient == f.recipientAddress
    ensures c.endpointPricing[PaidPath].acceptedTokens[0].tokenDecimals == 6
    ensures c.facilitatorUrl == f.facilitatorUrl
    ensures c.skipPaths == [InfoPath, HealthPath]
    ensures c.validitySeconds == 300
  {
    var usdc := TokenRequirement(
      "arbitrum-one", "0xaf88d065e77c8cC2239327C5EDb3A432268e5831", "USDC",
      f.recipientAddress, "USD Coin", 6);
    var rule := PricingRule("0.01", "Get premium content", [usdc]);
    PaymentConfig(f.facilitatorUrl, map[PaidPath := rule], [InfoPath, HealthPath], 5 * 60)
  }

  /**
   * The start-up sequence up to the point where the payment configuration is
   * built: an empty recipient address stops the process before anything is
   * started.
   */
  function Startup(f: Flags): (r: Result<PaymentConfig, StartupError>)
    ensures r.Failure? <==> f.recipientAddress == ""
    ensures r.Failure? ==> r.error == MissingRecipientAddress
    ensures r.Success? ==> r.value == PaymentConfigFor(f)
  {
    if f.recipientAddress == "" then Failure(MissingRecipientAddress) else Success(PaymentConfigFor(f))
  }

  /**
   * With the default flags start-up is refused; given only a recipient it
   * succeeds, pays that recipient and uses the public facilitator.
   */
  lemma StartupScenario(recipient: string)
    requires recipient != ""
    ensures Startup(DefaultFlags()) == Failure(MissingRecipientAddress)
    ensures var r := Startup(DefaultFlags().(recipientAddress := recipient));
            && r.Success?
            && r.value.endpointPricing[PaidPath].acceptedTokens[0].recipient == recipient
            && r.value.facilitatorUrl == "https://facilitator.x402.org"
  {
  }

  /**
   * What the free info endpoint advertises is what the middleware charges:
   * the same price and the same tokens, in the same order.
   */
  lemma {:induction false} InfoAdvertisesConfiguredPricing(f: Flags, count: Handler.int64)
    requires f.recipientAddress != ""
    ensures Startup(f).Success?
    ensures var rule := Startup(f).value.endpointPricing[PaidPath];
            var info := Handler.InfoOf(count);
            && rule.amount == info.priceUsd
            && |rule.acceptedTokens| == |info.acceptedTokens|
            && forall i :: 0 <= i < |rule.acceptedTokens| ==>
                 Handler.TokenInfo(rule.acceptedTokens[i].symbol, rule.acceptedTokens[i].network,
                                   rule.acceptedTokens[i].assetContract) == info.acceptedTokens[i]
  {
  }

  /* ---------- request logging ---------- */

  /** The Go `min` helper. */
  function Min(a: int, b: int): (r: int)
    ensures r <= a && r <= b
    ensures r == a || r == b
  {
    if a < b then a else b
  }

  const PreviewLimit: nat := 100

  /** What the logging handler logs about the X-Payment header. */
  datatype PaymentLog = NoPaymentHeader | PaymentHeader(length: nat, preview: string)

  /**
   * An empty header is logged as absent; otherwise its length and a preview of
   * at most the first 100 characters are logged, never the whole of a longer proof.
   */
  function PaymentLogOf(header: string): (l: PaymentLog)
    ensures l.NoPaymentHeader? <==> header == ""
    ensures l.PaymentHeader? ==>
      && l.length == |header|
      && |l.preview| == Min(PreviewLimit, |header|)
      && l.preview <= header
    ensures l.PaymentHeader? ==> |l.preview| <= PreviewLimit
    ensures l.PaymentHeader? && |header| <= PreviewLimit ==> l.preview == header
    ensures l.PaymentHeader? && |header| > PreviewLimit ==> |l.preview| == PreviewLimit
  {
    if header != "" then PaymentHeader(|header|, header[..Min(PreviewLimit, |header|)]) else NoPaymentHeader
  }

  /** One request as the logging handler reports it: method, path, payment header and final status. */
  datatype RequestLog = RequestLog(verb: string, path: string, payment: PaymentLog, status: int)

  /** The status a logging writer holds after the given WriteHeader calls. */
  ghost function LastStatus(calls: seq<int>): int
  {
    if calls == [] then 200 else calls[|calls| - 1]
  }

  /**
   * loggingResponseWriter: forwards WriteHeader and remembers its argument.
   * Header() and Write are those of the embedded writer, reached as `inner`.
   */
  class LoggingWriter {
    const inner: ResponseWriter
    var statusCode: int
    /** The WriteHeader calls made on this writer so far. */
    ghost var calls: seq<int>

    ghost predicate Valid()
      reads this
    {
      statusCode == LastStatus(calls)
    }

    constructor (w: ResponseWriter)
      ensures inner == w && calls == [] && statusCode == 200 && Valid()
    {
      inner := w;
      statusCode := 200;
      calls := [];
    }

    method WriteHeader(code: int)
      requires Valid()
      modifies this, inner
      ensures Valid() && calls == old(calls) + [code] && statusCode == code
      ensures inner.statuses == old(inner.statuses) + [code]
      ensures inner.header == old(inner.header) && inner.body == old(inner.body)
    {
      statusCode := code;
      calls := calls + [code];
      inner.WriteHeader(code);
    }
  }

  /**
   * Everything behind the logging handler: the x402 payment middleware, the
   * grpc-gateway mux and the content service it calls, seen from the outside.
   * Every invocation is counted and the headers in place when it is called
   * are recorded; it then adds the headers `replyHeaders`, writes the status
   * `reply` (or none) and appends `replyBody`, all through the writer it is
   * given.
   */
  class PaymentMiddleware {
    var invocations: nat
    /** The response headers as they stood when this was last invoked. */
    ghost var seen: Header
    const reply: Option<int>
    const replyHeaders: Header
    const replyBody: string

    constructor (reply: Option<int>, replyHeaders: Header, replyBody: string)
      ensures this.reply == reply && this.replyHeaders == replyHeaders && this.replyBody == replyBody
      ensures invocations == 0
    {
      this.reply := reply;
      this.replyHeaders := replyHeaders;
      this.replyBody := replyBody;
      invocations := 0;
      seen := map[];
    }

    method ServeHTTP(w: LoggingWriter, r: Request)
      requires w.Valid()
      modifies this, w, w.inner
      ensures invocations == old(invocations) + 1
      ensures seen == old(w.inner.header)
      ensures w.Valid() && w.calls == old(w.calls) + (if reply.Some? then [reply.value] else [])
      ensures w.inner.statuses == old(w.inner.statuses) + (if reply.Some? then [reply.value] else [])
      ensures w.inner.header == old(w.inner.header) + replyHeaders
      ensures w.inner.body == old(w.inner.body) + replyBody
    {
      invocations := invocations + 1;
      seen := w.inner.header;
      w.inner.SetHeaders(replyHeaders);
      if reply.Some? {
        w.WriteHeader(reply.value);
      }
      w.inner.Write(replyBody);
    }
  }

  /* ---------- CORS ---------- */

  const AllowOrigin: string := "Access-Control-Allow-Origin"
  const AllowMethods: string := "Access-Control-Allow-Methods"
  const AllowHeaders: string := "Access-Control-Allow-Headers"
  const ExposeHeaders: string := "Access-Control-Expose-Headers"

  /**
   * The response headers after the CORS handler has run on `h` for a request
   * whose Origin header is `origin`.
   */
  function CorsHeaders(h: Header, origin: string): (r: Header)
    ensures AllowOrigin in r <==> origin != "" || AllowOrigin in h
    ensures origin != "" ==> r[AllowOrigin] == origin
    ensures origin == "" && AllowOrigin in h ==> r[AllowOrigin] == h[AllowOrigin]
    ensures AllowMethods in r && r[AllowMethods] == "GET, POST, OPTIONS"
    ensures AllowHeaders in r && r[AllowHeaders] == "Content-Type, X-Payment"
    ensures ExposeHeaders in r && r[ExposeHeaders] == "X-Payment-Response"
    ensures forall k :: k in h && k !in {AllowOrigin, AllowMethods, AllowHeaders, ExposeHeaders} ==>
              k in r && r[k] == h[k]
    ensures r.Keys == h.Keys + {AllowMethods, AllowHeaders, ExposeHeaders} + (if origin != "" then {AllowOrigin} else {})
  {
    var withOrigin := if origin != "" then h[AllowOrigin := origin] else h;
    withOrigin[AllowMethods := "GET, POST, OPTIONS"]
              [AllowHeaders := "Content-Type, X-Payment"]
              [ExposeHeaders := "X-Payment-Response"]
  }

  /** Running the CORS handler twice on one response leaves the same headers as running it once. */
  lemma {:induction false} CorsHeadersIdempotent(h: Header, origin: string)
    ensures CorsHeaders(CorsHeaders(h, origin), origin) == CorsHeaders(h, origin)
  {
    var once := CorsHeaders(h, origin);
    var twice := CorsHeaders(once, origin);
    assert twice.Keys == once.Keys;
    forall k | k in once
      ensures twice[k] == once[k]
    {
    }
  }

  /* ---------- the handler tree ---------- */

  /** The HTTP handler built by startHTTPGateway, in front of the payment middleware. */
  class GatewayHandler {
    const payments: PaymentMiddleware

    constructor (payments: PaymentMiddleware)
      ensures this.payments == payments
    {
      this.payments := payments;
    }

    /**
     * The logging handler: logs the method, path and X-Payment header, calls
     * the payment middleware once through a status-recording writer, and
     * logs the status that writer holds afterwards.
     */
    method LogRequest(w: ResponseWriter, r: Request) returns (log: RequestLog)
      modifies payments, w
      ensures payments.invocations == old(payments.invocations) + 1
      ensures payments.seen == old(w.header)
      ensures log.verb == r.verb && log.path == r.path
      ensures log.payment == PaymentLogOf(Get(r.header, "X-Payment"))
      ensures var written := if payments.reply.Some? then [payments.reply.value] else [];
              && w.statuses == old(w.statuses) + written
              && log.status == LastStatus(written)
      ensures w.header == old(w.header) + payments.replyHeaders
      ensures w.body == old(w.body) + payments.replyBody
    {
      var payment := PaymentLogOf(Get(r.header, "X-Payment"));
      var wrapped := new LoggingWriter(w);
      payments.ServeHTTP(wrapped, r);
      log := RequestLog(r.verb, r.path, payment, wrapped.statusCode);
    }

    /**
     * addCORS around the logging handler: sets the CORS headers, answers a
     * preflight with 200 itself, and passes any other request on exactly
     * once, with the CORS headers already in place.
     */
    method Cors(w: ResponseWriter, r: Request) returns (log: Option<RequestLog>)
      modifies payments, w
      ensures r.verb == "OPTIONS" ==>
        && log == None
        && w.header == CorsHeaders(old(w.header), Get(r.header, "Origin"))
        && w.statuses == old(w.statuses) + [200]
        && w.body == old(w.body)
        && payments.invocations == old(payments.invocations)
      ensures r.verb != "OPTIONS" ==>
        && payments.invocations == old(payments.invocations) + 1
        && payments.seen == CorsHeaders(old(w.header), Get(r.header, "Origin"))
        && w.header == CorsHeaders(old(w.header), Get(r.header, "Origin")) + payments.replyHeaders
        && w.body == old(w.body) + payments.replyBody
        && w.statuses == old(w.statuses) + (if payments.reply.Some? then [payments.reply.value] else [])
        && log.Some?
        && log.value.verb == r.verb && log.value.path == r.path
        && log.value.payment == PaymentLogOf(Get(r.header, "X-Payment"))
        && log.value.status == (if payments.reply.Some? then payments.reply.value else 200)
    {
      var origin := Get(r.header, "Origin");
      if origin != "" {
        w.SetHeader(AllowOrigin, origin);
      }
      w.SetHeader(AllowMethods, "GET, POST, OPTIONS");
      w.SetHeader(AllowHeaders, "Content-Type, X-Payment");
      w.SetHeader(ExposeHeaders, "X-Payment-Response");

      if r.verb == "OPTIONS" {
        w.WriteHeader(200);
        return None;
      }

      var l := LogRequest(w, r);
      return Some(l);
    }

    /**
     * The top-level mux: "/health" answers 200 "OK" without CORS headers and
     * without reaching the payment middleware; every other path goes through
     * the CORS handler.
     */
    method ServeHTTP(w: ResponseWriter, r: Request) returns (log: Option<RequestLog>)
      modifies payments, w
      ensures r.path == HealthPath ==>
        && log == None
        && w.statuses == old(w.statuses) + [200]
        && w.body == old(w.body) + "OK"
        && w.header == old(w.header)
        && payments.invocations == old(payments.invocations)
      ensures r.path != HealthPath && r.verb == "OPTIONS" ==>
        && log == None
        && w.header == CorsHeaders(old(w.header), Get(r.header, "Origin"))
        && w.statuses == old(w.statuses) + [200]
        && w.body == old(w.body)
        && payments.invocations == old(payments.invocations)
      ensures r.path != HealthPath && r.verb != "OPTIONS" ==>
        && payments.invocations == old(payments.invocations) + 1
        && payments.seen == CorsHeaders(old(w.header), Get(r.header, "Origin"))
        && w.header == CorsHeaders(old(w.header), Get(r.header, "Origin")) + payments.replyHeaders
        && w.body == old(w.body) + payments.replyBody
        && w.statuses == old(w.statuses) + (if payments.reply.Some? then [payments.reply.value] else [])
        && log.Some?
        && log.value.verb == r.verb && log.value.path == r.path
        && log.value.payment == PaymentLogOf(Get(r.header, "X-Payment"))
        && log.value.status == (if payments.reply.Some? then payments.reply.value else 200)
    {
      if r.path == HealthPath {
        w.WriteHeader(200);
        w.Write("OK");
        return None;
      }
      log := Cors(w, r);
    }
  }
}
