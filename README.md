# Pay-per-call content service behind an x402 gateway — Dafny model

The service sells one piece of content through the x402 HTTP payment
protocol. A gRPC service (`RickRollServer`) keeps a paid-call counter. Its
paid operation `GetRickRoll` returns fixed content plus a receipt copied from
the payment that the x402 middleware put in the request context. Its free
operation `GetInfo` reports the counter, the price and the accepted token.
In front of it, an HTTP gateway does four things:

- It refuses to start without a recipient address.
- It configures the x402 middleware with one priced path and two free paths.
- It answers `/health` directly.
- It wraps every other path in a CORS handler and a logging handler. The
  logging handler logs a truncated preview of the `X-Payment` header and the
  final status code, which it captures through a wrapping response writer.

The model has four modules:

- `Wrappers` (wrappers.dfy) has `Option` and `Result`.
- `Http` (http.dfy) stands in for the parts of Go's net/http that are used:
  a `Request` value and a `ResponseWriter` class. The writer's header map,
  list of written statuses and body are updated in place.
- `Handler` (handler.dfy) models rickroll/service/handler.go. `RickRollServer`
  is a class with the `rickrollCount` field, which is a Go `int64`. Go's `++`
  wraps around on overflow, so the model writes that out with `Wrap64`. The
  methods are proved against the pure functions `Serve`, `CountAfterCall` and
  `InfoOf`. Lemmas over whole sequences of calls relate the counter to the
  number of paid calls.
- `Gateway` (gateway.dfy) models rickroll/service/main.go. It covers the
  start-up check and the x402 configuration it builds, `min`, and the payment
  log preview. It has the `loggingResponseWriter` as a class with a
  `statusCode` field, the CORS rules as a function on header maps, and the
  handler tree as a class whose methods mutate the response writer.
  Everything behind the logging handler is opaque here: the x402 middleware,
  the grpc-gateway mux and the content service it reaches.
  `PaymentMiddleware` stands in for that chain. It counts its invocations and
  records the response headers in place when it is called. It then adds
  arbitrary headers, writes an optional status and appends an arbitrary body,
  all through the writer it is given.

The payment lookup (`x402.GetPaymentFromGRPCContext`) becomes an
`Option<Payment>` parameter. The settlement time is taken as its Unix seconds
(an `int64`). The log output is not modelled; what would be logged is returned
as a `RequestLog` value (method, path, payment-header log, final status).

`/health` is registered on the outer mux (rickroll/service/main.go:161), and
the CORS handler only on `/` (rickroll/service/main.go:165). So an OPTIONS
request to `/health` gets 200 and `OK` with no CORS headers, while an OPTIONS
request to any other path gets 200 and the CORS headers.
`GatewayHandler.ServeHTTP` states both.

## Model

| member | source | states |
|---|---|---|
| `Handler.RickRollServer.constructor` | rickroll/service/handler.go:18-22 | A new server's counter is 0. |
| `Handler.Serve` | rickroll/service/handler.go:27-53 | The call fails with `PaymentNotInContext` exactly when there is no payment. Otherwise the receipt's transaction hash, amount, token symbol, payer and settlement seconds equal the payment's fields, and the lyrics, video URL and empty GIF are the fixed content. |
| `Handler.RickRollServer.GetRickRoll` | rickroll/service/handler.go:25-54 | Returns `Serve(payment)`. Without a payment the counter is unchanged (the early return comes before the increment). With a payment the counter becomes the int64 successor, which is exactly one more below `MaxInt64`. |
| `Handler.Wrap64` | rickroll/service/handler.go:35 | The int64 result is congruent to its argument modulo 2^64. It equals the argument when the argument is in int64 range (Go's wrap-around `++`). |
| `Handler.RickRollServer.GetInfo` | rickroll/service/handler.go:57-70 | Changes nothing. Returns the current counter, price "0.01" and exactly one accepted token: USDC on arbitrum-one at 0xaf88d065e77c8cC2239327C5EDb3A432268e5831. |
| `Handler.ContentIndependentOfPayment` | rickroll/service/handler.go:48-53 | Two paid responses differ only in their receipts. |
| `Handler.ReceiptIdentifiesPayment` | rickroll/service/handler.go:38-44 | Equal paid responses come from equal payments: the receipt keeps every payment field the handler reads. |
| `Handler.CountAfterCallsIsPaidCalls` | rickroll/service/handler.go:28-35 | After any sequence of calls, the counter equals the start value plus the number of calls that carried a payment, truncated to int64. |
| `Handler.CountFromFreshServer` | rickroll/service/handler.go:18-35 | Starting from a fresh server and below the int64 limit, the counter after n paid calls is n, and no prefix of the calls leaves a larger counter than the whole sequence. |
| `Handler.PaidCallScenario` | rickroll/service/handler.go:18-70 | A new server reports 0. A call without payment is refused. A paid call returns that payment's transaction hash. `GetInfo` then reports 1, and a second `GetInfo` returns the same response. |
| `Gateway.Startup` | rickroll/service/main.go:34-36 | Start-up fails with `MissingRecipientAddress` exactly when the recipient address is empty. Otherwise it yields the payment configuration for those flags. |
| `Gateway.StartupScenario` | rickroll/service/main.go:23-36 | With the default flags (9090, 8080, the public facilitator, no recipient) start-up is refused. With only a recipient added, it succeeds, pays that recipient and uses the public facilitator. |
| `Gateway.PaymentConfigFor` | rickroll/service/main.go:84-109 | The only priced path is `/v1/rickroll`, at "0.01", with one accepted token. That token is paid to the configured recipient and has 6 decimals. The verifier uses the configured facilitator, `/v1/info` and `/health` are exempt, and proofs are valid for 300 seconds. |
| `Gateway.InfoAdvertisesConfiguredPricing` | rickroll/service/main.go:88-100 | The price and tokens (symbol, network, contract, in order) that `GetInfo` advertises are the ones the middleware is configured to charge. |
| `Gateway.Min` | rickroll/service/main.go:216-222 | The result is at most each argument and equals one of them. |
| `Gateway.PaymentLogOf` | rickroll/service/main.go:139-145 | An empty `X-Payment` header takes the "no header" branch. Otherwise the header's length is logged, with a preview that is a prefix of length `min(100, len)`. A header of at most 100 characters is previewed whole, and a longer one is cut to exactly 100. |
| `Gateway.LoggingWriter.constructor` | rickroll/service/main.go:148 | The wrapped writer starts with status 200 and no recorded calls. |
| `Gateway.LoggingWriter.WriteHeader` | rickroll/service/main.go:211-214 | The recorded status becomes the argument, which is the last of all calls so far. The same code is forwarded once to the underlying writer, and its headers and body are untouched. |
| `Gateway.PaymentMiddleware.ServeHTTP` | rickroll/service/main.go:131-132 | Stand-in for the x402 middleware, the grpc-gateway mux and the content service. It counts one invocation and records the headers it was called with. It then adds its headers, writes at most one status through the logging writer, and appends its body. |
| `Gateway.CorsHeaders` | rickroll/service/main.go:228-234 | `Access-Control-Allow-Origin` is set to the request's Origin exactly when Origin is non-empty, and otherwise keeps its previous value or absence. The three fixed headers always get their fixed values. Every other header is kept, and no other key is added. |
| `Gateway.CorsHeadersIdempotent` | rickroll/service/main.go:228-234 | Applying the CORS header rules twice gives the same headers as applying them once. |
| `Gateway.GatewayHandler.LogRequest` | rickroll/service/main.go:135-154 | Logs the method, the path and `PaymentLogOf(X-Payment)`. Calls the middleware exactly once with the headers unchanged. The logged status is 200 if nothing was written. Otherwise it is the last status the middleware wrote, which also reached the client. The middleware's headers and body reach the client writer. |
| `Gateway.GatewayHandler.Cors` | rickroll/service/main.go:225-244 | OPTIONS gets `CorsHeaders(old headers, Origin)` and status 200, and the next handler is not called. Any other method calls the next handler exactly once, with `CorsHeaders(old headers, Origin)` already in place. The final headers are those plus the next handler's. Its result is logged, with status 200 unless the next handler wrote one. |
| `Gateway.GatewayHandler.ServeHTTP` | rickroll/service/main.go:159-165 | `/health` gets 200 and body `OK`, with no CORS headers and no call to the middleware. Every other path gets exactly what the CORS handler promises: the preflight answer, or one logged call to the middleware with the CORS headers in place and the logged status. |

## Left out

- Process bootstrap is not modelled: the gRPC and HTTP listeners, the serving goroutines, signal handling and the 5-second shutdown grace period. These are I/O and concurrency.
- Everything behind the logging handler is not modelled: the x402 library (EVM verifier, `Config.Validate`, the 402 challenge, the validity window, `WithPaymentMetadata`, the context lookup), the grpc-gateway mux and the gRPC call into the content service. `PaymentMiddleware` stands in for that chain with arbitrary fixed headers, status and body. It is not connected to `RickRollServer`, so the model does not prove that `/v1/rickroll` without a valid proof gets 402 and never reaches the counter.
- Start-up failures other than the empty recipient are not modelled: verifier construction, config validation, handler registration and listener binding all happen inside libraries or the OS.
- The gRPC-gateway translation and the generated protobuf types are not modelled; plain datatypes replace them.
- Log output is not modelled. Only the values that would be logged are returned.
- The unsynchronised increment of `rickrollCount` under concurrent requests is not modelled. Calls are modelled one after another.
- Go's header-key canonicalisation is not modelled, so header keys are assumed to be canonical already. A header map also holds a single value per key instead of a list.
- Go strings are byte strings. The model counts one `char` per byte, so a preview that would cut a multi-byte UTF-8 character is not distinguished.
- `time.Time.Unix()` is not modelled; the settlement time arrives as int64 seconds.
- The underlying `ResponseWriter` records every `WriteHeader` call. Go's real writer ignores a second call, and this is not modelled. Within this model each writer gets at most one status per request.
- Go `http.ServeMux` path cleaning and redirects are not modelled. Routing compares the path to `/health` exactly.
- The React frontend (wallet connection, EIP-712/EIP-3009 signing, fetch) is not modelled: it is UI, network and foreign cryptography.
