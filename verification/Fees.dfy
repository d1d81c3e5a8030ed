/** The routing fee a payment may cost on top of its amount. */
module Fees {
  import opened Wrappers
  import opened GoInt
  import opened Invoices

  const FULL_UP_TO: int := 1000000

  /** Go's int64 arithmetic: 5 in 100 above the cut. */
  function FeeLimit(a: int): int {
    if a <= FULL_UP_TO then a else Quo(I64(a * 5), 100)
  }

  /** The limit Sendpayment sets for an invoice. */
  function FeeOf(d: Decoded): int { FeeLimit(Value(d)) }

  function SumValue(ds: seq<Decoded>): int {
    if ds == [] then 0 else Value(ds[0]) + SumValue(ds[1..])
  }

  function SumFee(ds: seq<Decoded>): int {
    if ds == [] then 0 else FeeOf(ds[0]) + SumFee(ds[1..])
  }

  lemma FeeBounds(a: int)
    requires 0 <= a < TWO_63
    ensures FeeLimit(a) <= a && 20 * FeeLimit(a) <= 20000000 + a
    ensures a * 5 < TWO_63 ==> 0 <= FeeLimit(a) == if a <= 1000000 then a else a / 20
  {
    if a > FULL_UP_TO {
      var k := (a * 5 + TWO_63) / TWO_64;
      assert I64(a * 5) == a * 5 - k * TWO_64 && k >= 0;
      var y := I64(a * 5);
      assert 100 * Quo(y, 100) <= y + 99 && (y >= 0 ==> 100 * Quo(y, 100) <= y);
      if a * 5 < TWO_63 {
        assert k == 0;
        assert a * 5 / 100 == a / 20;
      }
    }
  }

  /** Whatever is paid, the fees allowed for it never exceed the amounts, and
      stay within a million per payment and a twentieth of the total, although
      the limit falls from a million to fifty thousand just above the cut. */
  lemma {:induction false} FeeBudget(ds: seq<Decoded>)
    requires forall k :: 0 <= k < |ds| ==> ValidDecoded(ds[k])
    ensures SumFee(ds) <= SumValue(ds)
    ensures 20 * SumFee(ds) <= 20000000 * |ds| + SumValue(ds)
  {
    if ds != [] {
      assert ValidDecoded(ds[0]);
      FeeBounds(Value(ds[0]));
      FeeBudget(ds[1..]);
    }
  }

  /** A larger payment is allowed a smaller fee exactly across the cut, when a
      twentieth of it is less than the smaller payment. */
  lemma FeeDropsIff(a: int, b: int)
    requires 0 <= a <= b && b * 5 < TWO_63
    ensures FeeLimit(b) < FeeLimit(a) <==> a <= 1000000 < b && b / 20 < a
  {
    FeeBounds(a);
    FeeBounds(b);
    assert a / 20 <= b / 20;
  }

  // ------------------------------------------------ a payment

  datatype SendRequest = SendRequest(assetId: int, paymentRequest: string, feeLimitMsat: int,
                                     noInflightUpdates: bool, timeoutSeconds: int)

  /** What comes back: the node refuses the request or breaks the stream, or reports
      a status. */
  datatype Answer = Refused | Broken | Succeeded | OtherStatus

  /** Pays a request.  The limit counts millisatoshis of a bitcoin invoice and units of
      any other. */
  method Sendpayment(reg: Registry, payRequest: string, answer: Answer) returns (ok: bool, sent: Option<SendRequest>)
    ensures ok <==> payRequest in reg && answer == Succeeded
    ensures sent.Some? <==> payRequest in reg
    ensures sent.Some? ==>
      && sent.value.assetId == reg[payRequest].assetId && sent.value.paymentRequest == payRequest
      && sent.value.noInflightUpdates && sent.value.timeoutSeconds == 100
      && sent.value.feeLimitMsat == FeeOf(reg[payRequest])
    ensures sent.Some? && ValidDecoded(reg[payRequest]) ==>
      var a := if reg[payRequest].assetId == 0 then reg[payRequest].amtMsat else reg[payRequest].amount;
      && (a <= 1000000 ==> sent.value.feeLimitMsat == a)
      && (1000000 < a && a * 5 < 0x8000_0000_0000_0000 ==> sent.value.feeLimitMsat == a / 20)
      && sent.value.feeLimitMsat <= a
  {
    if payRequest !in reg {
      return false, None;
    }
    var decoded := reg[payRequest];
    var invoiceAmt := decoded.amtMsat;
    if decoded.assetId != 0 {
      invoiceAmt := decoded.amount;
    }
    if ValidDecoded(decoded) {
      FeeBounds(invoiceAmt);
    }
    sent := Some(SendRequest(decoded.assetId, payRequest, FeeLimit(invoiceAmt), true, 100));
    ok := answer == Succeeded;
  }
}
