/**
 * The content service (rickroll/service/handler.go): a server object whose
 * only state is the paid-call counter, a paid operation that builds a receipt
 * from the payment the middleware put in the request context, and a free
 * operation that reports the counter and static metadata.
 */
module Handler {
  import opened Wrappers

  /** Go's int64: the counter's type and the type of time.Time.Unix(). */
  newtype int64 = x: int | -0x8000_0000_0000_0000 <= x < 0x8000_0000_0000_0000

  const Modulus64: int := 0x1_0000_0000_0000_0000

  /**
   * Two's-complement truncation to 64 bits, which is what Go's `++` on an
   * int64 does when it overflows.
   */
  function Wrap64(x: int): (r: int64)
    ensures (x - r as int) % Modulus64 == 0
    ensures -0x8000_0000_0000_0000 <= x < 0x8000_0000_0000_0000 ==> r as int == x
  {
    var m := x % Modulus64;
    if m < 0x8000_0000_0000_0000 then m as int64 else (m - Modulus64) as int64
  }

  /** Two values that differ by a multiple of 2^64 truncate to the same int64. */
  lemma Wrap64Congruent(x: int, y: int)
    requires (x - y) % Modulus64 == 0
    ensures Wrap64(x) == Wrap64(y)
  {
    var a, b := Wrap64(x) as int, Wrap64(y) as int;
    var qa, qb, q := (x - a) / Modulus64, (y - b) / Modulus64, (x - y) / Modulus64;
    assert x - a == Modulus64 * qa;
    assert y - b == Modulus64 * qb;
    assert x - y == Modulus64 * q;
    assert a - b == Modulus64 * (q - qa + qb);
  }

  /** Truncating first and adding afterwards is the same as adding first. */
  lemma Wrap64Add(x: int, k: int)
    ensures Wrap64(Wrap64(x) as int + k) == Wrap64(x + k)
  {
    var w := Wrap64(x) as int;
    var q := (x - w) / Modulus64;
    assert x - w == Modulus64 * q;
    assert (x + k) - (w + k) == Modulus64 * q;
    Wrap64Congruent(w + k, x + k);
  }

  /** The payment the x402 middleware attaches to the request context. */
  datatype Payment = Payment(
    transactionHash: string,
    amount: string,
    tokenSymbol: string,
    payerAddress: string,
    settledAtUnix: int64)

  datatype PaymentReceipt = PaymentReceipt(
    transactionHash: string,
    amountPaid: string,
    tokenSymbol: string,
    payerAddress: string,
    settledAt: int64)

  datatype RickRollResponse = RickRollResponse(
    lyrics: string,
    videoUrl: string,
    gif: seq<bv8>,
    receipt: PaymentReceipt)

  datatype TokenInfo = TokenInfo(symbol: string, network: string, contractAddress: string)

  datatype InfoResponse = InfoResponse(
    description: string,
    priceUsd: string,
    totalRickrolls: int64,
    acceptedTokens: seq<TokenInfo>)

  /** The only error GetRickRoll reports: no payment in the context. */
  datatype HandlerError = PaymentNotInContext

  const Lyrics: string := "Premium content goes here - add your own text"
  const VideoUrl: string := "https://www.youtube.com/embed/dQw4w9WgXcQ"
  const Description: string := "Pay-per-use service powered by x402 protocol"
  const PriceUsd: string := "0.01"
  const Usdc: TokenInfo := TokenInfo("USDC", "arbitrum-one", "0xaf88d065e77c8cC2239327C5EDb3A432268e5831")

  function ReceiptOf(p: Payment): PaymentReceipt
  {
    PaymentReceipt(p.transactionHash, p.amount, p.tokenSymbol, p.payerAddress, p.settledAtUnix)
  }

  /** The response GetRickRoll returns for a given payment lookup. */
  function Serve(payment: Option<Payment>): (r: Result<RickRollResponse, HandlerError>)
    ensures r.Failure? <==> payment.None?
    ensures payment.None? ==> r.error == PaymentNotInContext
    ensures payment.Some? ==>
      && r.value.receipt.transactionHash == payment.value.transactionHash
      && r.value.receipt.amountPaid == payment.value.amount
      && r.value.receipt.tokenSymbol == payment.value.tokenSymbol
      && r.value.receipt.payerAddress == payment.value.payerAddress
      && r.value.receipt.settledAt == payment.value.settledAtUnix
    ensures payment.Some? ==> r.value.lyrics == Lyrics && r.value.videoUrl == VideoUrl && r.value.gif == []
  {
    match payment
    case None => Failure(PaymentNotInContext)
    case Some(p) => Success(RickRollResponse(Lyrics, VideoUrl, [], ReceiptOf(p)))
  }

  /** The counter after one GetRickRoll call. */
  function CountAfterCall(count: int64, payment: Option<Payment>): int64
  {
    if payment.Some? then Wrap64(count as int + 1) else count
  }

  /** The response GetInfo returns when the counter holds `count`. */
  function InfoOf(count: int64): InfoResponse
  {
    InfoResponse(Description, PriceUsd, count, [Usdc])
  }

  class RickRollServer {
    var rickrollCount: int64

    /** NewRickRollServer */
    constructor ()
      ensures rickrollCount == 0
    {
      rickrollCount := 0;
    }

    method GetRickRoll(payment: Option<Payment>) returns (r: Result<RickRollResponse, HandlerError>)
      modifies this
      ensures r == Serve(payment)
      ensures rickrollCount == CountAfterCall(old(rickrollCount), payment)
      ensures payment.None? ==> rickrollCount == old(rickrollCount)
      ensures payment.Some? && old(rickrollCount) as int < 0x7fff_ffff_ffff_ffff ==>
        rickrollCount as int == old(rickrollCount) as int + 1
    {
      if payment.None? {
        return Failure(PaymentNotInContext);
      }
      rickrollCount := Wrap64(rickrollCount as int + 1);
      var receipt := ReceiptOf(payment.value);
      return Success(RickRollResponse(Lyrics, VideoUrl, [], receipt));
    }

    method GetInfo() returns (info: InfoResponse)
      ensures info == InfoOf(rickrollCount)
      ensures info.totalRickrolls == rickrollCount
      ensures info.priceUsd == "0.01"
      ensures info.acceptedTokens == [TokenInfo("USDC", "arbitrum-one", "0xaf88d065e77c8cC2239327C5EDb3A432268e5831")]
    {
      info := InfoResponse(Description, PriceUsd, rickrollCount, [Usdc]);
    }
  }

  /** Two paid responses differ in nothing but their receipts. */
  lemma ContentIndependentOfPayment(p: Payment, q: Payment)
    ensures Serve(Some(p)).value.(receipt := ReceiptOf(q)) == Serve(Some(q)).value
  {
  }

  /** The receipt loses nothing the handler reads from the payment: distinct payments give distinct responses. */
  lemma ReceiptIdentifiesPayment(p: Payment, q: Payment)
    requires Serve(Some(p)) == Serve(Some(q))
    ensures p == q
  {
    assert Serve(Some(p)).value.receipt == ReceiptOf(p);
    assert Serve(Some(q)).value.receipt == ReceiptOf(q);
  }

  /** How many of the calls carried a payment. */
  function PaidCalls(calls: seq<Option<Payment>>): (n: nat)
    ensures n <= |calls|
  {
    if calls == [] then 0 else (if calls[0].Some? then 1 else 0) + PaidCalls(calls[1..])
  }

  /** The counter after the calls, made one after another, starting from `count`. */
  function CountAfterCalls(count: int64, calls: seq<Option<Payment>>): int64
    decreases calls
  {
    if calls == [] then count else CountAfterCalls(CountAfterCall(count, calls[0]), calls[1..])
  }

  /**
   * Each paid call adds exactly one and an unpaid call adds nothing, modulo
   * the int64 wrap-around.
   */
  lemma {:induction false} CountAfterCallsIsPaidCalls(count: int64, calls: seq<Option<Payment>>)
    ensures CountAfterCalls(count, calls) == Wrap64(count as int + PaidCalls(calls))
    decreases calls
  {
    if calls == [] {
    } else {
      var next := CountAfterCall(count, calls[0]);
      CountAfterCallsIsPaidCalls(next, calls[1..]);
      if calls[0].Some? {
        Wrap64Add(count as int + 1, PaidCalls(calls[1..]));
      }
    }
  }

  /**
   * From a fresh server, the counter equals the number of paid calls and,
   * below the int64 limit, never decreases from one call to the next.
   */
  lemma {:induction false} CountFromFreshServer(calls: seq<Option<Payment>>, k: nat)
    requires PaidCalls(calls) <= 0x7fff_ffff_ffff_ffff
    requires k <= |calls|
    ensures CountAfterCalls(0, calls) as int == PaidCalls(calls)
    ensures CountAfterCalls(0, calls[..k]) <= CountAfterCalls(0, calls)
  {
    CountAfterCallsIsPaidCalls(0, calls);
    CountAfterCallsIsPaidCalls(0, calls[..k]);
    PaidCallsSplit(calls, k);
  }

  lemma {:induction false} PaidCallsSplit(calls: seq<Option<Payment>>, k: nat)
    requires k <= |calls|
    ensures PaidCalls(calls[..k]) + PaidCalls(calls[k..]) == PaidCalls(calls)
  {
    if k == 0 {
      assert calls[..k] == [] && calls[k..] == calls;
    } else {
      PaidCallsSplit(calls[1..], k - 1);
      assert calls[..k][1..] == calls[1..][..k - 1];
      assert calls[1..][k - 1..] == calls[k..];
    }
  }

  /**
   * A fresh server reports 0, refuses a call without payment and leaves the
   * counter alone, serves a paid call with that payment's receipt, and then
   * reports 1; a second GetInfo with no paid call between reports the same.
   */
  method PaidCallScenario(p: Payment) returns (before: InfoResponse, refused: Result<RickRollResponse, HandlerError>,
                                               paid: Result<RickRollResponse, HandlerError>,
                                               after: InfoResponse, again: InfoResponse)
    ensures before.totalRickrolls == 0 && before.acceptedTokens == [Usdc]
    ensures refused == Failure(PaymentNotInContext)
    ensures paid.Success? && paid.value.receipt.transactionHash == p.transactionHash
    ensures after.totalRickrolls == 1 && again == after
  {
    var s := new RickRollServer();
    before := s.GetInfo();
    refused := s.GetRickRoll(None);
    paid := s.GetRickRoll(Some(p));
    after := s.GetInfo();
    again := s.GetInfo();
  }
}
