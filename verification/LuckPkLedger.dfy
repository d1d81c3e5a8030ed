/** The money of the red packets. */
module LuckPkLedger {
  import opened Wrappers
  import opened GoInt
  import opened Tables
  import opened Invoices
  import opened LuckPkProtocol
  import opened LuckPkInvariant
  import opened LuckPkTheorems

  predicate Funded(s: State, id: int)
    requires id in s.packets
  {
    s.packets[id].paymentHash in s.net.funded
  }

  /** Received for a packet minus paid out of it. */
  function PkNet(s: State, id: int, asset: int): int
    requires id in s.packets
  {
    var p := s.packets[id];
    if U32(p.assetId) != asset then 0
    else (if Funded(s, id) then Value(PacketInvoice(p)) else 0) - Out(s, id)
  }

  ghost function Net(s: State, asset: int): map<int, int> {
    map id | id in s.packets :: PkNet(s, id, asset)
  }

  ghost predicate Balanced(s: State) {
    forall asset :: Cash(s, asset) == Sum(Net(s, asset))
  }

  lemma NetUpdated(s: State, t: State, id: int, asset: int)
    requires id in t.packets && t.packets.Keys == s.packets.Keys + {id}
    requires forall i :: i in s.packets && i != id ==> PkNet(t, i, asset) == PkNet(s, i, asset)
    ensures Net(t, asset) == Net(s, asset)[id := PkNet(t, id, asset)]
  {
  }

  lemma BalancedUpdate(s: State, t: State, id: int, asset: int)
    requires Cash(s, asset) == Sum(Net(s, asset)) && id in t.packets && t.packets.Keys == s.packets.Keys + {id}
    requires forall i :: i in s.packets && i != id ==> PkNet(t, i, asset) == PkNet(s, i, asset)
    requires Cash(t, asset) - Cash(s, asset)
          == PkNet(t, id, asset) - (if id in s.packets then PkNet(s, id, asset) else 0)
    ensures Cash(t, asset) == Sum(Net(t, asset))
  {
    NetUpdated(s, t, id, asset);
    SumUpdate(Net(s, asset), id, PkNet(t, id, asset));
  }

  lemma BalancedCreate(s: State, t: State, lk: LuckPk)
    requires Balanced(s) && s.net.out.Keys <= s.packets.Keys && lk.id !in s.packets
    requires lk.paymentHash !in s.net.funded && t == s.(packets := s.packets[lk.id := lk])
    ensures Balanced(t)
  {
    assert Out(t, lk.id) == 0;
    forall asset ensures Cash(t, asset) == Sum(Net(t, asset)) {
      BalancedUpdate(s, t, lk.id, asset);
    }
  }

  lemma BalancedFund(s: State, t: State, id: int)
    requires Balanced(s) && HashesOk(s) && id in s.packets && !Funded(s, id) && t == DoFund(s, id)
    ensures Balanced(t)
  {
    forall asset ensures Cash(t, asset) == Sum(Net(t, asset)) {
      forall i | i in s.packets && i != id ensures PkNet(t, i, asset) == PkNet(s, i, asset) {
        assert s.packets[i].paymentHash != s.packets[id].paymentHash;
      }
      BalancedUpdate(s, t, id, asset);
    }
  }

  lemma BalancedSettle(reg: Registry, s: State, t: State)
    requires ValidRegistry(reg) && Balanced(s) && InsideOk(reg, s) && Enabled(reg, s, Settle) && t == DoSettle(reg, s)
    ensures Balanced(t)
  {
    var c, lk := s.inside.value.c, s.inside.value.lk;
    assert U32(lk.assetId) == reg[c.invoice].assetId;
    forall asset ensures Cash(t, asset) == Sum(Net(t, asset)) {
      BalancedUpdate(s, t, c.luckpkId, asset);
    }
  }

  lemma BalancedStill(s: State, t: State)
    requires Balanced(s) && Forward(s, t) && t.packets.Keys == s.packets.Keys && t.net == s.net
    ensures Balanced(t)
  {
    forall asset ensures Cash(t, asset) == Sum(Net(t, asset)) {
      forall i | i in s.packets ensures PkNet(t, i, asset) == PkNet(s, i, asset) {
        assert PkForward(s.packets[i], t.packets[i]);
      }
      assert Net(t, asset) == Net(s, asset);
    }
  }

  lemma StillStep(reg: Registry, s: State, e: Event, t: State)
    requires Inv(reg, s) && Next(reg, s, e, t) && !e.Create? && !e.Fund? && !e.Settle?
    ensures t.packets.Keys == s.packets.Keys && t.net == s.net
  {
  }

  lemma StepBalanced(reg: Registry, s: State, e: Event, t: State)
    requires ValidRegistry(reg) && Inv(reg, s) && Balanced(s) && Next(reg, s, e, t)
    ensures Balanced(t)
  {
    match e {
      case Create(lk) => BalancedCreate(s, t, lk);
      case Fund(id) => BalancedFund(s, t, id);
      case Settle => BalancedSettle(reg, s, t);
      case _ =>
        StillStep(reg, s, e, t);
        StepForward(reg, s, e, t);
        BalancedStill(s, t);
    }
  }

  lemma {:induction false} LeadsBalanced(reg: Registry, n: nat, t: State)
    requires ValidRegistry(reg) && Leads(reg, INITIAL, n, t)
    ensures Inv(reg, t) && Balanced(t)
  {
    if n > 0 {
      var m, e :| Leads(reg, INITIAL, n - 1, m) && Next(reg, m, e, t);
      LeadsBalanced(reg, n - 1, m);
      StepInv(reg, m, e, t);
      StepBalanced(reg, m, e, t);
    } else {
      forall asset ensures Cash(t, asset) == Sum(Net(t, asset)) {
        assert Net(t, asset) == map[];
      }
    }
  }

  // ------------------------------------------------ what is owed

  /** The balance of a paid-up packet, less the payment that is in hand. */
  function PkOwed(s: State, id: int): int
    requires id in s.packets
  {
    if !Funded(s, id) then 0
    else s.packets[id].balance - AmtIf(s, SettledFor(s, id)) - AmtIf(s, PayedFor(s, id))
  }

  /** Payments that have left the packet. */
  function PkPayouts(s: State, id: int): int
    requires id in s.packets
  {
    s.packets[id].gives + One(SettledFor(s, id)) + One(PayedFor(s, id))
  }

  ghost function PkOwedOf(s: State, asset: int): map<int, int> {
    map id | id in s.packets :: if U32(s.packets[id].assetId) == asset then PkOwed(s, id) else 0
  }

  ghost function PkPayoutsOf(s: State, asset: int): map<int, int> {
    map id | id in s.packets :: if U32(s.packets[id].assetId) == asset then PkPayouts(s, id) else 0
  }

  /** What the invoice of a paid-up packet falls short of its amount. */
  function PkShort(s: State, id: int): int
    requires id in s.packets
  {
    var p := s.packets[id];
    if Funded(s, id) then Scale(U32(p.assetId)) * p.amt - Value(PacketInvoice(p)) else 0
  }

  ghost function PkShortOf(s: State, asset: int): map<int, int> {
    map id | id in s.packets :: if U32(s.packets[id].assetId) == asset then PkShort(s, id) else 0
  }

  /** Every paid-up packet of an asset has an amount that fits its invoice. */
  predicate AllBacked(s: State, asset: int) {
    forall id :: id in s.packets && U32(s.packets[id].assetId) == asset && Funded(s, id) ==> Backed(s.packets[id])
  }

  lemma Wrapped(x: int)
    requires x < TWO_63 * 1000
    ensures x >= TWO_63 ==> I64(x) <= x - TWO_64
    ensures -TWO_63 <= x < TWO_63 ==> I64(x) == x
    ensures I64(x) < TWO_63
  {
    var k := (x + TWO_63) / TWO_64;
    assert I64(x) == x - k * TWO_64;
    if x >= TWO_63 {
      assert k >= 1;
    }
  }

  /** The invoice is worth the packet's amount exactly if that fits, and otherwise
      short of it by 2^64 or more. */
  lemma InvoiceValue(lk: LuckPk)
    requires IsU64(lk.assetId) && IsU64(lk.amt)
    ensures PacketInvoice(lk).assetId == U32(lk.assetId)
    ensures var full, value := Scale(U32(lk.assetId)) * lk.amt, Value(PacketInvoice(lk));
      if Backed(lk) then value == full else value <= full - TWO_64
  {
    Wrapped(lk.amt);
    Wrapped(I64(lk.amt) * 1000);
  }

  /** Nothing leaves a packet before its invoice is paid, or one whose asset id
      does not fit 32 bits. */
  lemma NothingOut(reg: Registry, s: State, id: int)
    requires ValidRegistry(reg) && Inv(reg, s) && id in s.packets
    requires !Funded(s, id) || s.packets[id].assetId >= TWO_32
    ensures Out(s, id) == 0 && PkPayouts(s, id) == 0 && s.packets[id].balance == s.packets[id].amt
  {
    assert PacketOk(s, id);
    assert !SettledFor(s, id) && !PayedFor(s, id);
    assert |PayedAmts(s.items, id)| == 0;
    assert PayedAmts(s.items, id) == map[];
  }

  lemma PkBound(reg: Registry, s: State, id: int, asset: int)
    requires ValidRegistry(reg) && Inv(reg, s) && id in s.packets
    ensures var mine := U32(s.packets[id].assetId) == asset;
      var owed := if mine then PkOwed(s, id) else 0;
      var payouts := if mine then PkPayouts(s, id) else 0;
      var full := PkNet(s, id, asset) + if mine then PkShort(s, id) else 0;
      && (asset != 0 ==> full == owed)
      && (asset == 0 ==> 1000 * owed - 999 * payouts <= full <= 1000 * owed)
  {
    assert PacketOk(s, id);
    if !Funded(s, id) || s.packets[id].assetId >= TWO_32 {
      NothingOut(reg, s, id);
    } else {
      assert U32(s.packets[id].assetId) == s.packets[id].assetId;
    }
  }

  /** Before anything has been paid out, what a paid-up packet brought in is its
      balance exactly if the amount fits the invoice. */
  lemma FundedIff(reg: Registry, n: nat, t: State, id: int)
    requires ValidRegistry(reg) && Leads(reg, INITIAL, n, t) && id in t.packets && Funded(t, id) && PkPayouts(t, id) == 0
    ensures var p := t.packets[id]; var asset := U32(p.assetId);
      PkNet(t, id, asset) == Scale(asset) * p.balance <==> Backed(p)
  {
    ReachableInv(reg, n, t);
    assert PacketOk(t, id);
    PkBound(reg, t, id, U32(t.packets[id].assetId));
    InvoiceValue(t.packets[id]);
  }

  /** The shortfall of an asset is nothing exactly if its packets are backed, and
      otherwise 2^64 or more. */
  lemma ShortIff(reg: Registry, s: State, asset: int)
    requires Inv(reg, s)
    ensures if AllBacked(s, asset) then Sum(PkShortOf(s, asset)) == 0 else Sum(PkShortOf(s, asset)) >= TWO_64
  {
    var short := PkShortOf(s, asset);
    forall id | id in short ensures short[id] >= 0 && (short[id] == 0 || short[id] >= TWO_64) {
      assert PacketOk(s, id);
      InvoiceValue(s.packets[id]);
    }
    SumNonNegative(short);
    ShortRows(reg, s, asset);
  }

  lemma ShortRows(reg: Registry, s: State, asset: int)
    requires Inv(reg, s)
    ensures AllBacked(s, asset) <==> forall id :: id in PkShortOf(s, asset) ==> PkShortOf(s, asset)[id] == 0
  {
    forall id | id in s.packets && U32(s.packets[id].assetId) == asset && Funded(s, id)
      ensures Backed(s.packets[id]) <==> PkShortOf(s, asset)[id] == 0 {
      assert PacketOk(s, id);
      InvoiceValue(s.packets[id]);
    }
  }

  /** Conservation for every asset but bitcoin: what was received and not paid out
      is what is owed, less what invoices fell short, which is nothing exactly if
      every packet's amount fits. */
  lemma AssetConserved(reg: Registry, n: nat, t: State, asset: int)
    requires ValidRegistry(reg) && Leads(reg, INITIAL, n, t) && asset != 0
    ensures Cash(t, asset) + Sum(PkShortOf(t, asset)) == Sum(PkOwedOf(t, asset))
    ensures Cash(t, asset) == Sum(PkOwedOf(t, asset)) <==> AllBacked(t, asset)
  {
    LeadsBalanced(reg, n, t);
    forall id | id in t.packets ensures PkOwedOf(t, asset)[id] == Net(t, asset)[id] + PkShortOf(t, asset)[id] {
      PkBound(reg, t, id, asset);
    }
    SumAdd(Net(t, asset), PkShortOf(t, asset), PkOwedOf(t, asset));
    ShortIff(reg, t, asset);
  }

  /** What packets brought in with what their invoices fell short. */
  ghost function FullOf(s: State, asset: int): map<int, int> {
    map id | id in s.packets :: Net(s, asset)[id] + PkShortOf(s, asset)[id]
  }

  /** Conservation for bitcoin, in millisatoshis.  Without a shortfall less than a
      satoshi is lost on a payout; with one, more than any number of payouts below
      2^64 / 999 can lose. */
  lemma BitcoinConserved(reg: Registry, n: nat, t: State)
    requires ValidRegistry(reg) && Leads(reg, INITIAL, n, t)
    ensures var owed, payouts := Sum(PkOwedOf(t, 0)), Sum(PkPayoutsOf(t, 0));
      && 1000 * owed - 999 * payouts <= Cash(t, 0) + Sum(PkShortOf(t, 0)) <= 1000 * owed
      && (if AllBacked(t, 0) then 1000 * owed - 999 * payouts <= Cash(t, 0) <= 1000 * owed
          else Cash(t, 0) <= 1000 * owed - TWO_64)
  {
    LeadsBalanced(reg, n, t);
    FullBetween(reg, t);
    SumAdd(Net(t, 0), PkShortOf(t, 0), FullOf(t, 0));
    ShortIff(reg, t, 0);
  }

  lemma FullBetween(reg: Registry, s: State)
    requires ValidRegistry(reg) && Inv(reg, s)
    ensures 1000 * Sum(PkOwedOf(s, 0)) - 999 * Sum(PkPayoutsOf(s, 0)) <= Sum(FullOf(s, 0)) <= 1000 * Sum(PkOwedOf(s, 0))
  {
    var owed, payouts, full := PkOwedOf(s, 0), PkPayoutsOf(s, 0), FullOf(s, 0);
    forall id | id in s.packets ensures 1000 * owed[id] - 999 * payouts[id] <= full[id] <= 1000 * owed[id] {
      PkBound(reg, s, id, 0);
    }
    Between(owed, payouts, full);
  }

  // ------------------------------------------------ an amount that does not fit

  /** An amount for which the conversion to millisatoshis wraps. */
  const WRAPPING: int := 0x2000_0000_0000_0001

  /** A bitcoin packet of 2^61 + 1 satoshis is paid up with one satoshi. */
  lemma WrappedPacket(reg: Registry)
    ensures exists t: State ::
      && Leads(reg, INITIAL, 2, t) && 1 in t.packets && U32(t.packets[1].assetId) == 0 && !Backed(t.packets[1])
      && Cash(t, 0) == 1000 && PkOwed(t, 1) == WRAPPING
  {
    var lk := LuckPk(1, 7, 0, WRAPPING, WRAPPING, "h", 1, 0, INIT, 0, "", "");
    var s := INITIAL.(packets := map[1 := lk]);
    var t := DoFund(s, 1);
    assert Leads(reg, INITIAL, 0, INITIAL);
    OneMore(reg, 0, INITIAL, Create(lk), s);
    OneMore(reg, 1, s, Fund(1), t);
    WrappedValue(lk);
  }

  lemma OneMore(reg: Registry, n: nat, s: State, e: Event, t: State)
    requires Leads(reg, INITIAL, n, s) && Next(reg, s, e, t)
    ensures Leads(reg, INITIAL, n + 1, t)
  {
    assert Leads(reg, INITIAL, n + 1 - 1, s);
  }

  lemma WrappedValue(lk: LuckPk)
    requires lk.assetId == 0 && lk.amt == WRAPPING
    ensures Value(PacketInvoice(lk)) == 1000 && PacketInvoice(lk).assetId == 0 && !Backed(lk)
  {
    assert I64(WRAPPING) == WRAPPING;
    assert I64(WRAPPING * 1000) == 1000;
  }
}
