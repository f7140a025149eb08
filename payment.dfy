/** The two payment routes: `POST /payment/order`, which checks the amount and
    shapes the order request sent to the payment gateway, and
    `POST /payment/verify`, which recomputes the gateway's HMAC signature over
    `orderId|paymentId` and compares it with the one the client supplied. */
module Payment {

  datatype Option<T> = None | Some(value: T)

  /** The request the handler hands to the gateway's order-creation call. */
  datatype GatewayOrder = GatewayOrder(amount: int, currency: string, receipt: string)

  /** The outcome of `POST /payment/order` before the gateway is reached: a 400
      with a message, or the order request to forward. */
  datatype OrderReply = Rejected(status: nat, message: string) | Forward(order: GatewayOrder)

  /** The reply of `POST /payment/verify`. */
  datatype VerifyReply = VerifyReply(status: nat, success: bool)

  const ReceiptPrefix: string := "event_"

  predicate IsDigit(c: char)
  {
    '0' <= c <= '9'
  }

  /** The decimal text of a non-negative integer, as JavaScript writes a
      millisecond timestamp when it is concatenated to a string. */
  function Decimal(n: nat): (s: string)
    ensures |s| >= 1
    ensures forall i :: 0 <= i < |s| ==> IsDigit(s[i])
  {
    var d := ('0' as int + n % 10) as char;
    if n < 10 then [d] else Decimal(n / 10) + [d]
  }

  /** The value of a string of decimal digits. */
  function DecimalValue(s: string): nat
    requires forall i :: 0 <= i < |s| ==> IsDigit(s[i])
  {
    if s == [] then 0
    else
      assert IsDigit(s[|s| - 1]);
      DecimalValue(s[..|s| - 1]) * 10 + (s[|s| - 1] as int - '0' as int)
  }

  /** Reading back the decimal text gives the number: no two timestamps share
      a text. */
  lemma {:induction false} DecimalRoundTrip(n: nat)
    ensures DecimalValue(Decimal(n)) == n
  {
    var s := Decimal(n);
    if n >= 10 {
      assert s[..|s| - 1] == Decimal(n / 10);
      DecimalRoundTrip(n / 10);
    }
  }

  /** The receipt token for an order created at clock reading `now`. */
  function Receipt(now: nat): (r: string)
    ensures |r| > |ReceiptPrefix| && r[..|ReceiptPrefix|] == ReceiptPrefix
  {
    ReceiptPrefix + Decimal(now)
  }

  /** Orders created at different clock readings carry different receipts. */
  lemma ReceiptInjective(t1: nat, t2: nat)
    ensures Receipt(t1) == Receipt(t2) ==> t1 == t2
  {
    if Receipt(t1) == Receipt(t2) {
      assert Decimal(t1) == Receipt(t1)[|ReceiptPrefix|..];
      assert Decimal(t2) == Receipt(t2)[|ReceiptPrefix|..];
      DecimalRoundTrip(t1);
      DecimalRoundTrip(t2);
    }
  }

  /** An amount is falsy when it is missing or zero. */
  predicate Falsy(amount: Option<int>)
  {
    amount == None || amount.value == 0
  }

  /** `POST /payment/order`: a falsy amount is rejected before the gateway is
      reached; any other amount (negative ones included) is forwarded in minor
      units, in INR, with a time-based receipt. */
  function CreateOrder(amount: Option<int>, now: nat): (r: OrderReply)
    ensures r.Rejected? <==> Falsy(amount)
    ensures r.Rejected? ==> r == Rejected(400, "Amount required")
    ensures r.Forward? ==>
      r.order.currency == "INR" && r.order.receipt == Receipt(now) &&
      r.order.amount % 100 == 0 && r.order.amount / 100 == amount.value
    ensures r.Forward? ==> (r.order.amount < 0 <==> amount.value < 0)
  {
    if Falsy(amount) then Rejected(400, "Amount required")
    else Forward(GatewayOrder(amount.value * 100, "INR", Receipt(now)))
  }

  /** A 500-rupee order goes to the gateway as 50000 paise. */
  lemma OrderOfFiveHundred(now: nat)
    ensures CreateOrder(Some(500), now) == Forward(GatewayOrder(50000, "INR", Receipt(now)))
  {
  }

  /** The message the gateway signs: order id, a bar, payment id. */
  function Payload(orderId: string, paymentId: string): (m: string)
    ensures |m| == |orderId| + 1 + |paymentId|
    ensures m[|orderId|] == '|'
    ensures m[..|orderId|] == orderId && m[|orderId| + 1..] == paymentId
  {
    orderId + "|" + paymentId
  }

  /** When order ids contain no bar, the signed message determines both ids. */
  lemma PayloadInjective(o1: string, p1: string, o2: string, p2: string)
    requires '|' !in o1 && '|' !in o2
    requires Payload(o1, p1) == Payload(o2, p2)
    ensures o1 == o2 && p1 == p2
  {
  }

  /** With a bar inside an id, two different pairs sign the same message. */
  lemma PayloadAmbiguous()
    ensures Payload("a|b", "c") == Payload("a", "b|c")
  {
  }

  /** `POST /payment/verify`: success exactly when the HMAC of the payload under
      the secret equals the supplied signature character for character.
      `hmac` stands for hex-encoded HMAC-SHA256 (RFC 2104, FIPS 180-4). */
  function Verify(hmac: (string, string) -> string, secret: string,
                  orderId: string, paymentId: string, signature: string): (r: VerifyReply)
    ensures r.success <==> signature == hmac(secret, Payload(orderId, paymentId))
    ensures r.status == (if r.success then 200 else 400)
  {
    var expected := hmac(secret, Payload(orderId, paymentId));
    if expected == signature then VerifyReply(200, true) else VerifyReply(400, false)
  }

  /** No signature other than the expected one is accepted: a one-character
      change, a change of letter case or a truncation all fail. */
  lemma SignatureExact(hmac: (string, string) -> string, secret: string,
                       orderId: string, paymentId: string, signature: string, other: string)
    requires Verify(hmac, secret, orderId, paymentId, signature).success
    requires other != signature
    ensures !Verify(hmac, secret, orderId, paymentId, other).success
  {
  }

  /** A lower-case hex digit, as the digest's "hex" encoding writes them. */
  predicate IsHex(c: char)
  {
    '0' <= c <= '9' || 'a' <= c <= 'f'
  }

  /** A signature holding anything other than lower-case hex digits (an
      upper-case digest, say) is rejected, since the digest is lower-case hex. */
  lemma NonHexRejected(hmac: (string, string) -> string, secret: string,
                       orderId: string, paymentId: string, signature: string, k: nat)
    requires forall i :: 0 <= i < |hmac(secret, Payload(orderId, paymentId))| ==>
      IsHex(hmac(secret, Payload(orderId, paymentId))[i])
    requires k < |signature| && !IsHex(signature[k])
    ensures !Verify(hmac, secret, orderId, paymentId, signature).success
  {
  }
}
