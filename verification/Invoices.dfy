/** Payment requests as the server sees them after decoding, the rule by which
    it reads an amount off one, and the invoices it issues itself. */
module Invoices {
  import opened GoInt

  /** What DecodePayReq returns.  Asset 0 is bitcoin, whose amount is in
      amtMsat; every other asset uses amount. */
  datatype Decoded = Decoded(paymentHash: string, assetId: int, amount: int, amtMsat: int,
                             timestamp: int, expiry: int)

  /** Where an invoice the server has issued stands. */
  datatype InvoiceState = OPEN | SETTLED | CANCELED | ACCEPTED

  /** Every payment request that decodes, with what it decodes to. */
  type Registry = map<string, Decoded>

  /** What lnd guarantees of a request it decodes. */
  ghost predicate ValidRegistry(reg: Registry) {
    && "" !in reg
    && forall p :: p in reg ==> ValidDecoded(reg[p])
  }

  predicate ValidDecoded(d: Decoded) {
    && d.expiry >= 0
    && 0 <= d.assetId < TWO_32
    && 0 <= d.amount < TWO_63
    && 0 <= d.amtMsat < TWO_63
  }

  /** The server's reading of an amount: satoshis for bitcoin, units otherwise. */
  function InvoiceAmt(d: Decoded): int {
    if d.assetId == 0 then Quo(d.amtMsat, 1000) else d.amount
  }

  /** What settling the request moves: millisatoshis for bitcoin, units otherwise. */
  function Value(d: Decoded): int {
    if d.assetId == 0 then d.amtMsat else d.amount
  }

  /** How many moved units one unit of InvoiceAmt stands for. */
  function Scale(assetId: int): int {
    if assetId == 0 then 1000 else 1
  }

  /** The invoice that AddInvoice asks lnd to issue. */
  function AddInvoice(assetId: int, amount: int, expirySec: int, paymentHash: string, now: int): Decoded {
    Decoded(paymentHash, assetId,
            if assetId > 0 then amount else 0,
            if assetId > 0 then 0 else I64(amount * 1000),
            now, expirySec)
  }

  /** The last second at which a payment of the request is accepted. */
  function Deadline(d: Decoded): int { d.timestamp + d.expiry }

  /** Reading back an invoice the server issued returns the amount it was issued
      for, unless the conversion to millisatoshis leaves int64. */
  lemma AddInvoiceReadBack(assetId: int, amount: int, expirySec: int, hash: string, now: int)
    requires 0 <= assetId < TWO_32 && IsI64(amount)
    ensures InvoiceAmt(AddInvoice(assetId, amount, expirySec, hash, now)) == amount
       <==> assetId > 0 || IsI64(amount * 1000)
  {
    if assetId == 0 {
      var x := amount * 1000;
      var y := I64(x);
      if IsI64(x) {
        assert y == x;
      } else {
        var k := (x + TWO_63) / TWO_64;
        assert y == x - k * TWO_64;
        assert k != 0;
        assert y - x >= TWO_64 || x - y >= TWO_64;
        assert -1000 < y - 1000 * Quo(y, 1000) < 1000;
      }
    }
  }

  /** Flooring to satoshis hides at most 999 millisatoshis, and nothing of
      other assets. */
  lemma ValueBounds(d: Decoded)
    requires ValidDecoded(d)
    ensures d.assetId != 0 ==> Value(d) == InvoiceAmt(d)
    ensures d.assetId == 0 ==> 1000 * InvoiceAmt(d) <= Value(d) <= 1000 * InvoiceAmt(d) + 999
    ensures InvoiceAmt(d) >= 0
  {
  }
}
