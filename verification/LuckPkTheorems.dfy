/** What the books of the red packets amount to, over whole runs. */
module LuckPkTheorems {
  import opened Wrappers
  import opened GoInt
  import opened Tables
  import opened Invoices
  import opened LuckPkProtocol
  import opened LuckPkInvariant

  /** Nobody is between settling a payment for this packet and saving the packet. */
  predicate AtRest(s: State, id: int) {
    !SettledFor(s, id) && !PayedFor(s, id)
  }

  /** Conservation: whenever no payment for the packet is in hand, balance and
      PAYED items make up the amount, gives counts the PAYED items, the packet is
      over exactly when all parts are given, and what left it in bitcoin exceeds
      the granted amounts by less than a satoshi a time. */
  lemma PacketConserved(reg: Registry, n: nat, t: State, id: int)
    requires ValidRegistry(reg) && Leads(reg, INITIAL, n, t) && id in t.packets && AtRest(t, id)
    ensures var p := t.packets[id];
      && p.balance + Sum(PayedAmts(t.items, id)) == p.amt
      && 0 <= p.balance <= p.amt && p.gives == |PayedAmts(t.items, id)| <= p.parts
      && (p.status == End <==> p.gives == p.parts && p.parts > 0)
      && (p.assetId != 0 ==> Out(t, id) == p.amt - p.balance)
      && (p.assetId == 0 ==>
            1000 * (p.amt - p.balance) <= Out(t, id) <= 1000 * (p.amt - p.balance) + 999 * p.gives)
  {
    ReachableInv(reg, n, t);
    assert PacketOk(t, id);
  }

  /** Between the two saves, and between the settlement and the first save, the
      books are off by exactly the payment in hand. */
  lemma PacketBetweenSaves(reg: Registry, n: nat, t: State)
    requires ValidRegistry(reg) && Leads(reg, INITIAL, n, t)
    requires t.inside.Some? && (t.inside.value.Settled? || t.inside.value.Payed?)
    ensures var x, id := t.inside.value, t.inside.value.c.luckpkId;
      && id in t.packets && t.packets[id] == x.lk && 0 <= x.it.amt <= x.lk.balance
      && x.lk.balance + Sum(PayedAmts(t.items, id)) == x.lk.amt + One(x.Payed?) * x.it.amt
      && |PayedAmts(t.items, id)| == x.lk.gives + One(x.Payed?)
  {
    ReachableInv(reg, n, t);
    assert PacketOk(t, t.inside.value.c.luckpkId);
  }

  /** The packet is loaded before the payment and saved as a whole row after it,
      while the monitor and creators go on writing; still the save amounts to an
      increment and a decrement of the row as it is in the table at that moment. */
  lemma SaveIsIncrement(reg: Registry, n: nat, s: State, t: State)
    requires ValidRegistry(reg) && Leads(reg, INITIAL, n, s)
    requires s.inside.Some? && s.inside.value.Payed? && t == DoSavePacket(s)
    ensures Incremented(s, t, s.inside.value.c.luckpkId, s.inside.value.it.amt)
  {
    ReachableInv(reg, n, s);
    assert PacketOk(s, s.inside.value.c.luckpkId);
    SaveOne(reg, s, t);
  }

  /** The packet is counted up and its balance down; it ends with the last part. */
  predicate Incremented(s: State, t: State, id: int, amt: int) {
    && id in s.packets && s.packets[id].status == WorkIng && amt <= s.packets[id].balance
    && t.packets == s.packets[id := s.packets[id].(
         gives := s.packets[id].gives + 1, balance := s.packets[id].balance - amt,
         status := if s.packets[id].gives + 1 == s.packets[id].parts then End else WorkIng)]
  }

  lemma SaveOne(reg: Registry, s: State, t: State)
    requires InsideOk(reg, s) && s.inside.Some? && s.inside.value.Payed?
    requires RangesOk(s, s.inside.value.c.luckpkId) && t == DoSavePacket(s)
    ensures Incremented(s, t, s.inside.value.c.luckpkId, s.inside.value.it.amt)
  {
    GivenMeans(s.inside.value.lk, s.inside.value.it.amt);
  }

  /** A user is paid at most once from a packet and has at most one item in it. */
  lemma OneClaimPerUser(reg: Registry, n: nat, t: State, id: int, user: int)
    requires ValidRegistry(reg) && Leads(reg, INITIAL, n, t)
    ensures t.net.granted[(id, user)] <= 1
    ensures forall i, j ::
              (i in t.items && j in t.items && t.items[i].luckpkId == t.items[j].luckpkId == id
               && t.items[i].userId == t.items[j].userId == user) ==> i == j
  {
    ReachableInv(reg, n, t);
    assert GrantOk(t, id, user);
  }

  /** The balance never pays out an asset other than the one invoiced, although
      the 64-bit id is cut to 32 bits when invoicing: a packet whose id does not
      fit is never granted from.  The packet's own invoice is for its amount
      exactly if that fits. */
  lemma GrantedInInvoicedAsset(reg: Registry, n: nat, t: State)
    requires ValidRegistry(reg) && Leads(reg, INITIAL, n, t) && t.inside.Some? && HoldsItem(t.inside.value)
    ensures var x := t.inside.value;
      && x.c.invoice in reg && x.lk.assetId < TWO_32
      && reg[x.c.invoice].assetId == PacketInvoice(x.lk).assetId == x.lk.assetId
      && InvoiceAmt(reg[x.c.invoice]) <= x.lk.balance
      && (InvoiceAmt(PacketInvoice(x.lk)) == x.lk.amt <==> Backed(x.lk))
  {
    ReachableInv(reg, n, t);
    var x := t.inside.value;
    assert RangesOk(t, x.lk.id) by { assert PacketOk(t, x.lk.id); }
    InvoicedAsset(x.lk, reg[x.c.invoice].assetId);
  }

  lemma InvoicedAsset(lk: LuckPk, granted: int)
    requires IsU64(lk.assetId) && 0 <= granted < TWO_32 && lk.assetId == granted
    requires IsU64(lk.amt)
    ensures PacketInvoice(lk).assetId == granted
    ensures InvoiceAmt(PacketInvoice(lk)) == lk.amt <==> Backed(lk)
  {
    assert U32(lk.assetId) == granted && IsI64(I64(lk.amt));
    if lk.amt < TWO_63 {
      assert I64(lk.amt) == lk.amt;
      AddInvoiceReadBack(granted, lk.amt, 3600 * 24, lk.paymentHash, 0);
    } else {
      assert IsI64(I64(I64(lk.amt) * 1000));
    }
  }

  lemma NeverFromWideAsset(reg: Registry, n: nat, t: State, id: int)
    requires ValidRegistry(reg) && Leads(reg, INITIAL, n, t) && id in t.packets && t.packets[id].assetId >= TWO_32
    ensures t.packets[id].balance == t.packets[id].amt && Out(t, id) == 0
  {
    ReachableInv(reg, n, t);
    assert PacketOk(t, id);
    assert !SettledFor(t, id) && !PayedFor(t, id);
    assert |PayedAmts(t.items, id)| == 0;
    assert PayedAmts(t.items, id) == map[];
  }

  // ------------------------------------------------ histories

  predicate PkForward(a: LuckPk, b: LuckPk) {
    && a.id == b.id && a.amt == b.amt && a.assetId == b.assetId && a.parts == b.parts
    && a.paymentHash == b.paymentHash && a.gives <= b.gives && a.balance >= b.balance
    && (a.status == End ==> a == b)
    && (a.status != INIT ==> b.status != INIT)
  }

  /** Packets only move forward, PAYED items are final, no row disappears. */
  predicate Forward(s: State, t: State) {
    && (forall id :: id in s.packets ==> id in t.packets && PkForward(s.packets[id], t.packets[id]))
    && (forall i :: i in s.items ==>
          && i in t.items && t.items[i].luckpkId == s.items[i].luckpkId && t.items[i].userId == s.items[i].userId
          && (s.items[i].status == PAYED ==> t.items[i] == s.items[i]))
  }

  lemma BeginForward(reg: Registry, s: State, t: State, now: int)
    requires ValidRegistry(reg) && Inv(reg, s) && Enabled(reg, s, Begin(now))
    requires t == DoBegin(s, CheckNow(reg, s, now).value)
    ensures Forward(s, t)
  {
    BeginAllowed(reg, s, now);
    BeginItem(reg, s, s.inside.value.c, CheckNow(reg, s, now).value);
  }

  lemma SavePacketForward(reg: Registry, s: State, t: State)
    requires Inv(reg, s) && s.inside.Some? && s.inside.value.Payed? && t == DoSavePacket(s)
    ensures Forward(s, t)
  {
    var Payed(c, lk, it) := s.inside.value;
    assert PacketOk(s, lk.id);
    GivenMeans(lk, it.amt);
  }

  lemma MonitorForward(reg: Registry, s: State, t: State, ok: bool)
    requires Inv(reg, s) && s.monitor.Some? && t == DoMonitorUpdate(s, ok)
    ensures Forward(s, t)
  {
  }

  lemma ItemForward(reg: Registry, s: State, t: State, it: LuckItem)
    requires it.id in s.items && s.items[it.id].status != PAYED && t.packets == s.packets
    requires it.luckpkId == s.items[it.id].luckpkId && it.userId == s.items[it.id].userId
    requires t.items == s.items[it.id := it]
    ensures Forward(s, t)
  {
  }

  lemma StepForward(reg: Registry, s: State, e: Event, t: State)
    requires ValidRegistry(reg) && Inv(reg, s) && Next(reg, s, e, t)
    ensures Forward(s, t)
  {
    match e {
      case Begin(now) => BeginForward(reg, s, t, now);
      case SavePacket => SavePacketForward(reg, s, t);
      case MonitorUpdate(ok) => MonitorForward(reg, s, t, ok);
      case Fail(msg) => ItemForward(reg, s, t, s.inside.value.it.(status := Error, errMsg := msg));
      case SaveItem => ItemForward(reg, s, t, s.inside.value.it.(status := PAYED));
      case Create(lk) => assert t.items == s.items;
      case _ => assert t.packets == s.packets && t.items == s.items;
    }
  }

  lemma ForwardTrans(s: State, m: State, t: State)
    requires Forward(s, m) && Forward(m, t)
    ensures Forward(s, t)
  {
  }

  lemma LastForward(reg: Registry, s: State, n: nat, t: State) returns (m: State)
    requires ValidRegistry(reg) && Inv(reg, s) && n > 0 && Leads(reg, s, n, t)
    ensures Leads(reg, s, n - 1, m) && Forward(m, t)
  {
    var e;
    m, e :| Leads(reg, s, n - 1, m) && Next(reg, m, e, t);
    LeadsInv(reg, s, n - 1, m);
    StepForward(reg, m, e, t);
  }

  /** An ended packet never works again and a PAYED item stays as it is, however
      often the monitor is told of the packet's invoice. */
  lemma {:induction false} RunsForward(reg: Registry, s: State, n: nat, t: State)
    requires ValidRegistry(reg) && Inv(reg, s) && Leads(reg, s, n, t)
    ensures Forward(s, t)
  {
    if n > 0 {
      var m := LastForward(reg, s, n, t);
      RunsForward(reg, s, n - 1, m);
      ForwardTrans(s, m, t);
    }
  }
}
