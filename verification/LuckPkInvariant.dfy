/** The books of the red packets at every program point of GiveLuckPk, under any
    interleaving of claimants, creators and the monitor. */
module LuckPkInvariant {
  import opened Wrappers
  import opened GoInt
  import opened Tables
  import opened Invoices
  import opened LuckPkProtocol

  /** The amounts of the PAYED items of a packet, by item. */
  ghost function PayedAmts(items: map<int, LuckItem>, id: int): map<int, int> {
    map i | i in items && items[i].luckpkId == id && items[i].status == PAYED :: items[i].amt
  }

  predicate HoldsItem(x: Inside) { x.Paying? || x.Settled? || x.Payed? }

  /** The payment for this packet has settled but its item is not yet PAYED. */
  predicate SettledFor(s: State, id: int) {
    s.inside.Some? && s.inside.value.Settled? && s.inside.value.c.luckpkId == id
  }

  /** The item is PAYED but the packet is not yet saved. */
  predicate PayedFor(s: State, id: int) {
    s.inside.Some? && s.inside.value.Payed? && s.inside.value.c.luckpkId == id
  }

  function AmtIf(s: State, now: bool): int
    requires now ==> s.inside.Some? && HoldsItem(s.inside.value)
  {
    if now then s.inside.value.it.amt else 0
  }

  function One(now: bool): int { if now then 1 else 0 }

  /** Balance and count, which between the two saves are off by exactly the
      payment in hand. */
  ghost predicate BooksOk(s: State, id: int)
    requires id in s.packets
  {
    var p := s.packets[id];
    && p.balance + Sum(PayedAmts(s.items, id)) == p.amt + AmtIf(s, PayedFor(s, id))
    && |PayedAmts(s.items, id)| == p.gives + One(PayedFor(s, id))
  }

  predicate RangesOk(s: State, id: int)
    requires id in s.packets
  {
    var p := s.packets[id];
    && p.id == id && 0 <= p.balance <= p.amt < TWO_64 && 0 <= p.gives <= p.parts < TWO_64
    && IsU64(p.assetId)
  }

  /** A packet is over when, and only when, all its parts have been given; one
      without parts never is. */
  predicate StatusOk(s: State, id: int)
    requires id in s.packets
  {
    var p := s.packets[id];
    && (p.status == INIT || p.status == WorkIng || p.status == End)
    && (p.status == INIT ==> p.gives == 0 && p.balance == p.amt)
    && (p.status != INIT ==> p.paymentHash in s.net.funded)
    && (p.status == End <==> p.gives == p.parts && p.parts > 0)
    && (p.gives > 0 ==> p.assetId < TWO_32)
  }

  /** What has left the packet is what its items say, up to the sub-satoshi part
      of bitcoin invoices. */
  ghost predicate OutOk(s: State, id: int)
    requires id in s.packets
  {
    var total := Sum(PayedAmts(s.items, id)) + AmtIf(s, SettledFor(s, id));
    var n := |PayedAmts(s.items, id)| + One(SettledFor(s, id));
    if s.packets[id].assetId == 0 then 1000 * total <= Out(s, id) <= 1000 * total + 999 * n
    else Out(s, id) == total
  }

  /** The row in hand is the row in the table: the whole-row save loses nothing. */
  predicate InsideOk(reg: Registry, s: State) {
    match s.inside
    case None => true
    case Some(Locked(c)) => c.userId > 0
    case Some(Loaded(c, lk)) =>
      && c.userId > 0 && c.luckpkId in s.packets && lk.id == c.luckpkId
      && (lk.status == WorkIng ==> s.packets[c.luckpkId] == lk)
    case Some(x) =>
      var c, lk, it := x.c, x.lk, x.it;
      && c.luckpkId in s.packets && s.packets[c.luckpkId] == lk && lk.id == c.luckpkId && lk.status == WorkIng
      && lk.gives < lk.parts && 0 <= it.amt <= lk.balance
      && it.id in s.items && s.items[it.id] == it && it.luckpkId == c.luckpkId && it.userId == c.userId
      && it.status == (if x.Payed? then PAYED else PAYING)
      && c.invoice in reg && InvoiceAmt(reg[c.invoice]) == it.amt && reg[c.invoice].assetId == lk.assetId
  }

  predicate MonitorOk(s: State) {
    s.monitor.Some? ==>
      var id := s.monitor.value;
      id in s.packets && s.packets[id].status == INIT && s.packets[id].paymentHash in s.net.funded
  }

  /** The claimant inside is paying for item i. */
  predicate Holding(s: State, i: int) {
    s.inside.Some? && HoldsItem(s.inside.value) && !s.inside.value.Payed? && s.inside.value.it.id == i
  }

  predicate ItemOk(s: State, i: int)
    requires i in s.items
  {
    var it := s.items[i];
    && it.id == i && i < s.nextItem && it.luckpkId in s.packets && it.amt >= 0 && it.status != UNKNOWN
    && (it.status == PAYING ==> Holding(s, i))
  }

  /** One row per user and packet. */
  predicate ItemsOk(s: State) {
    && (forall i :: i in s.items ==> ItemOk(s, i))
    && (forall i, j ::
          (i in s.items && j in s.items
           && s.items[i].luckpkId == s.items[j].luckpkId && s.items[i].userId == s.items[j].userId) ==> i == j)
  }

  predicate HasPayed(s: State, id: int, user: int) {
    exists i :: i in s.items && s.items[i].luckpkId == id && s.items[i].userId == user && s.items[i].status == PAYED
  }

  /** A user has been paid from a packet once if the item says so or is about to,
      and otherwise not at all. */
  predicate GrantOk(s: State, id: int, user: int) {
    s.net.granted[(id, user)]
      == One(HasPayed(s, id, user)) + One(SettledFor(s, id) && s.inside.value.c.userId == user)
  }

  predicate HashesOk(s: State) {
    forall i, j :: i in s.packets && j in s.packets && s.packets[i].paymentHash == s.packets[j].paymentHash ==> i == j
  }

  ghost predicate PacketOk(s: State, id: int)
    requires id in s.packets
  {
    RangesOk(s, id) && StatusOk(s, id) && BooksOk(s, id) && OutOk(s, id)
  }

  ghost predicate PacketsOk(s: State) {
    forall id :: id in s.packets ==> PacketOk(s, id)
  }

  ghost predicate GrantsOk(s: State) {
    forall id, user :: GrantOk(s, id, user)
  }

  ghost predicate Inv(reg: Registry, s: State) {
    && PacketsOk(s) && GrantsOk(s) && ItemsOk(s)
    && InsideOk(reg, s) && MonitorOk(s) && HashesOk(s) && s.net.out.Keys <= s.packets.Keys
  }

  // ------------------------------------------------ Go's guards

  /** What the signed guard lets through.  A balance of 2^63 or more reads as
      negative, and only a difference that wraps back passes. */
  predicate Affordable(balance: int, amt: int) {
    if balance < TWO_63 then amt <= balance else balance - TWO_63 < amt
  }

  /** On all balances the signed guard fires unless the amount is affordable, and
      what is affordable is covered by the balance; the guard on single
      withdrawals never fires, and the subtraction does not wrap. */
  lemma GuardsMean(balance: int, parts: int, amt: int)
    requires IsU64(balance) && 0 <= amt < TWO_63 && parts > 0
    ensures I64(I64(balance) - amt) < 0 <==> !Affordable(balance, amt)
    ensures Affordable(balance, amt) ==> amt <= balance
    ensures !(U64(balance / parts - U64(amt)) < 0)
    ensures amt <= balance ==> U64(balance - U64(amt)) == balance - amt
  {
    assert U64(amt) == amt;
    if balance < TWO_63 {
      assert I64(balance) == balance;
      assert I64(balance - amt) == balance - amt;
    } else {
      assert I64(balance) == balance - TWO_64;
      WideDifference(balance, amt);
    }
  }

  lemma WideDifference(balance: int, amt: int)
    requires TWO_63 <= balance < TWO_64 && 0 <= amt < TWO_63
    ensures I64(balance - TWO_64 - amt) == if balance - TWO_63 < amt then balance - amt else balance - TWO_64 - amt
  {
    var x := balance - TWO_64 - amt;
    if balance - TWO_63 < amt {
      assert x + TWO_63 == (-1) * TWO_64 + (x + TWO_63 + TWO_64);
    }
  }

  lemma AmountMeans(lk: LuckPk, amt: int, assetId: int)
    requires 0 <= amt < TWO_63 && IsU64(assetId) && IsU64(lk.balance) && lk.parts > 0
    ensures CheckAmount(lk, amt, assetId) == if !Affordable(lk.balance, amt) then Err(Insufficient)
                                             else if lk.assetId != assetId then Err(WrongAsset) else Ok(amt)
    ensures CheckAmount(lk, amt, assetId).Ok? ==> amt <= lk.balance
  {
    GuardsMean(lk.balance, lk.parts, amt);
    assert U64(assetId) == assetId;
  }

  lemma CheckMeans(reg: Registry, lk: LuckPk, item: Option<LuckItem>, c: Claim, now: int)
    requires ValidRegistry(reg) && IsU64(lk.balance) && 0 <= lk.gives <= lk.parts
    ensures Check(reg, lk, item, c, now).Ok? <==>
      && lk.status == WorkIng && lk.gives < lk.parts && (lk.expiredTimeSec <= 0 || now <= lk.expiredTimeSec)
      && (item.Some? ==> item.value.status != PAYING && item.value.status != PAYED)
      && c.invoice in reg && Affordable(lk.balance, InvoiceAmt(reg[c.invoice])) && reg[c.invoice].assetId == lk.assetId
    ensures Check(reg, lk, item, c, now).Ok? ==>
      Check(reg, lk, item, c, now).value == InvoiceAmt(reg[c.invoice]) <= lk.balance
  {
    if c.invoice in reg && lk.parts > 0 {
      ValueBounds(reg[c.invoice]);
      AmountMeans(lk, InvoiceAmt(reg[c.invoice]), reg[c.invoice].assetId);
    }
  }

  // ------------------------------------------------ what a step leaves alone

  ghost predicate PacketFrame(s: State, t: State, id: int)
    requires id in s.packets
  {
    && id in t.packets && t.packets[id] == s.packets[id]
    && PayedAmts(t.items, id) == PayedAmts(s.items, id)
    && (PayedFor(s, id) <==> PayedFor(t, id)) && (SettledFor(s, id) <==> SettledFor(t, id))
    && (PayedFor(s, id) || SettledFor(s, id) ==> s.inside.value.it.amt == t.inside.value.it.amt)
    && Out(s, id) == Out(t, id) && s.net.funded <= t.net.funded
  }

  lemma PacketKept(s: State, t: State, id: int)
    requires id in s.packets && PacketOk(s, id) && PacketFrame(s, t, id)
    ensures PacketOk(t, id)
  {
  }

  /** Writing an item that is not PAYED, before or after, moves no amounts. */
  lemma ItemWrite(items: map<int, LuckItem>, it: LuckItem, id: int)
    requires it.status != PAYED && (it.id in items ==> items[it.id].status != PAYED)
    ensures PayedAmts(items[it.id := it], id) == PayedAmts(items, id)
  {
  }

  lemma ItemPayed(items: map<int, LuckItem>, it: LuckItem, id: int)
    requires it.status == PAYED && it.luckpkId == id && (it.id in items ==> items[it.id].status != PAYED)
    ensures Sum(PayedAmts(items[it.id := it], id)) == Sum(PayedAmts(items, id)) + it.amt
    ensures |PayedAmts(items[it.id := it], id)| == |PayedAmts(items, id)| + 1
  {
    var m := PayedAmts(items, id);
    assert PayedAmts(items[it.id := it], id) == m[it.id := it.amt];
    SumInsert(m, it.id, it.amt);
  }

  lemma ItemPayedElsewhere(items: map<int, LuckItem>, it: LuckItem, id: int)
    requires it.luckpkId != id && (it.id in items ==> items[it.id].luckpkId != id)
    ensures PayedAmts(items[it.id := it], id) == PayedAmts(items, id)
  {
  }

  // ------------------------------------------------ the steps

  /** The items as they were, and whoever was paying still is. */
  lemma ItemsKept(s: State, t: State)
    requires ItemsOk(s) && t.items == s.items && t.nextItem == s.nextItem && s.packets.Keys <= t.packets.Keys
    requires forall i :: Holding(s, i) ==> Holding(t, i) || (i in s.items && s.items[i].status != PAYING)
    ensures ItemsOk(t)
  {
    forall i | i in t.items ensures ItemOk(t, i) { assert ItemOk(s, i); }
  }

  /** One row written, which is the claimant's only one. */
  lemma ItemWritten(s: State, t: State, it: LuckItem)
    requires ItemsOk(s) && t.items == s.items[it.id := it] && t.packets == s.packets
    requires it.luckpkId in s.packets && it.amt >= 0 && it.status != UNKNOWN
    requires it.id < t.nextItem && s.nextItem <= t.nextItem && (it.status == PAYING ==> Holding(t, it.id))
    requires forall i :: Holding(s, i) ==> i == it.id
    requires forall i :: i in s.items && s.items[i].luckpkId == it.luckpkId && s.items[i].userId == it.userId ==> i == it.id
    ensures ItemsOk(t)
  {
    forall i | i in t.items ensures ItemOk(t, i) {
      if i in s.items { assert ItemOk(s, i); }
    }
  }

  lemma CreatePackets(s: State, t: State, lk: LuckPk)
    requires PacketsOk(s) && ItemsOk(s) && s.net.out.Keys <= s.packets.Keys && lk.id !in s.packets && NewPacket(lk)
    requires t == s.(packets := s.packets[lk.id := lk]) && !PayedFor(s, lk.id) && !SettledFor(s, lk.id)
    ensures PacketsOk(t)
  {
    forall id | id in t.packets ensures PacketOk(t, id) {
      if id != lk.id {
        assert PacketOk(s, id) && PacketFrame(s, t, id);
        PacketKept(s, t, id);
      } else {
        assert PayedAmts(t.items, id) == map[] by {
          forall i | i in t.items ensures t.items[i].luckpkId != id { assert ItemOk(s, i); }
        }
        assert Out(t, id) == 0;
      }
    }
  }

  lemma StepCreate(reg: Registry, s: State, t: State, lk: LuckPk)
    requires Inv(reg, s) && Enabled(reg, s, Create(lk)) && t == s.(packets := s.packets[lk.id := lk])
    ensures Inv(reg, t)
  {
    CreatePackets(s, t, lk);
    ItemsKept(s, t);
    GrantsKept(s, t);
  }

  /** Grants depend on the items and on who is inside. */
  lemma GrantsKept(s: State, t: State)
    requires GrantsOk(s)
    requires t.items == s.items && t.net.granted == s.net.granted
    requires forall id :: SettledFor(s, id) <==> SettledFor(t, id)
    requires forall id :: SettledFor(s, id) && SettledFor(t, id) ==> s.inside.value.c == t.inside.value.c
    ensures GrantsOk(t)
  {
    forall id, user ensures GrantOk(t, id, user) {
      assert GrantOk(s, id, user);
      assert HasPayed(s, id, user) <==> HasPayed(t, id, user);
    }
  }

  /** The monitor may have started a packet. */
  predicate PacketMoves(s: State, t: State, id: int)
    requires id in s.packets && id in t.packets
  {
    || t.packets[id] == s.packets[id]
    || (s.packets[id].status == INIT && t.packets[id] == s.packets[id].(status := WorkIng)
        && s.packets[id].paymentHash in t.net.funded)
  }

  lemma LightPackets(s: State, t: State)
    requires PacketsOk(s) && t.items == s.items && t.net.out == s.net.out && s.net.funded <= t.net.funded
    requires forall id :: (SettledFor(s, id) <==> SettledFor(t, id)) && (PayedFor(s, id) <==> PayedFor(t, id))
    requires (s.inside.Some? && HoldsItem(s.inside.value)) ==> t.inside == s.inside
    requires t.packets.Keys == s.packets.Keys && forall id :: id in s.packets ==> PacketMoves(s, t, id)
    ensures PacketsOk(t)
  {
    forall id | id in t.packets ensures PacketOk(t, id) {
      assert PacketOk(s, id);
      if t.packets[id] == s.packets[id] {
        assert PacketFrame(s, t, id);
        PacketKept(s, t, id);
      } else {
        assert PayedAmts(t.items, id) == PayedAmts(s.items, id);
      }
    }
  }

  /** Steps of the monitor, of the payer, and of a claimant before it writes. */
  lemma StepLight(reg: Registry, s: State, t: State)
    requires Inv(reg, s) && t.items == s.items && t.nextItem == s.nextItem
    requires t.net.granted == s.net.granted && t.net.out == s.net.out && s.net.funded <= t.net.funded
    requires forall id :: (SettledFor(s, id) <==> SettledFor(t, id)) && (PayedFor(s, id) <==> PayedFor(t, id))
    requires (s.inside.Some? && HoldsItem(s.inside.value)) ==> t.inside == s.inside
    requires t.packets.Keys == s.packets.Keys && forall id :: id in s.packets ==> PacketMoves(s, t, id)
    requires InsideOk(reg, t) && MonitorOk(t)
    ensures Inv(reg, t)
  {
    LightPackets(s, t);
    ItemsKept(s, t);
    GrantsKept(s, t);
  }

  lemma StepFund(reg: Registry, s: State, t: State, id: int)
    requires Inv(reg, s) && id in s.packets && t == DoFund(s, id)
    ensures Inv(reg, t)
  {
    StepLight(reg, s, t);
  }

  lemma StepMonitor(reg: Registry, s: State, e: Event, t: State)
    requires Inv(reg, s) && Next(reg, s, e, t) && (e.MonitorLoad? || e.MonitorUpdate?)
    ensures Inv(reg, t)
  {
    if e.MonitorUpdate? {
      assert PacketOk(s, s.monitor.value);
    }
    StepLight(reg, s, t);
  }

  lemma StepClaimant(reg: Registry, s: State, e: Event, t: State)
    requires Inv(reg, s) && Next(reg, s, e, t) && (e.Enter? || e.Load? || e.Refuse?)
    ensures Inv(reg, t)
  {
    if e.Load? && s.inside.value.c.luckpkId in s.packets {
      assert PacketOk(s, s.inside.value.c.luckpkId);
    }
    StepLight(reg, s, t);
  }

  /** The row that is about to be saved as PAYING, and that nobody else has one. */
  lemma BeginItem(reg: Registry, s: State, c: Claim, amt: int)
    requires Inv(reg, s) && c.luckpkId in s.packets && amt >= 0
    requires FindItem(s.items, c).Some? ==> FindItem(s.items, c).value.status == Error
    ensures var it := PayingItem(FindItem(s.items, c), s.nextItem, c, amt);
      && it.luckpkId == c.luckpkId && it.userId == c.userId && it.amt == amt && it.status == PAYING
      && (it.id in s.items ==>
            && s.items[it.id].status == Error
            && s.items[it.id].luckpkId == c.luckpkId && s.items[it.id].userId == c.userId)
      && (it.id !in s.items ==> it.id == s.nextItem)
      && (forall i :: i in s.items && s.items[i].luckpkId == c.luckpkId && s.items[i].userId == c.userId ==> i == it.id)
  {
    var ids := set i | i in s.items && s.items[i].luckpkId == c.luckpkId && s.items[i].userId == c.userId;
    match First(ids) {
      case None =>
        assert forall i :: i in s.items && s.items[i].luckpkId == c.luckpkId && s.items[i].userId == c.userId ==> i in ids;
        assert forall i :: i in s.items ==> ItemOk(s, i) && i < s.nextItem;
      case Some(k) =>
        assert ItemOk(s, k);
    }
  }

  lemma StepBegin(reg: Registry, s: State, t: State, now: int)
    requires ValidRegistry(reg) && Inv(reg, s) && Enabled(reg, s, Begin(now))
    requires t == DoBegin(s, CheckNow(reg, s, now).value)
    ensures Inv(reg, t)
  {
    var c, lk := s.inside.value.c, s.inside.value.lk;
    BeginAllowed(reg, s, now);
    var amt := CheckNow(reg, s, now).value;
    BeginItem(reg, s, c, amt);
    var it := PayingItem(FindItem(s.items, c), s.nextItem, c, amt);
    UnpaidPackets(s, t, it);
    ItemWritten(s, t, it);
    ItemGrants(s, t, it);
  }

  lemma UnpaidPackets(s: State, t: State, it: LuckItem)
    requires PacketsOk(s)
    requires it.status != PAYED && (it.id in s.items ==> s.items[it.id].status != PAYED)
    requires t.packets == s.packets && t.net == s.net && t.items == s.items[it.id := it]
    requires forall id :: !SettledFor(s, id) && !PayedFor(s, id) && !SettledFor(t, id) && !PayedFor(t, id)
    ensures PacketsOk(t)
  {
    forall id | id in t.packets ensures PacketOk(t, id) {
      assert PacketOk(s, id);
      ItemWrite(s.items, it, id);
      PacketKept(s, t, id);
    }
  }

  lemma BeginAllowed(reg: Registry, s: State, now: int)
    requires ValidRegistry(reg) && Inv(reg, s) && Enabled(reg, s, Begin(now))
    ensures var c, lk, amt := s.inside.value.c, s.inside.value.lk, CheckNow(reg, s, now).value;
      && c.luckpkId in s.packets && s.packets[c.luckpkId] == lk && lk.id == c.luckpkId && lk.status == WorkIng
      && lk.gives < lk.parts && 0 <= amt <= lk.balance && c.invoice in reg && InvoiceAmt(reg[c.invoice]) == amt
      && reg[c.invoice].assetId == lk.assetId
      && (FindItem(s.items, c).Some? ==> FindItem(s.items, c).value.status == Error)
  {
    var c, lk := s.inside.value.c, s.inside.value.lk;
    assert PacketOk(s, c.luckpkId);
    assert lk.status == WorkIng;
    CheckMeans(reg, lk, FindItem(s.items, c), c, now);
    ValueBounds(reg[c.invoice]);
    if FindItem(s.items, c).Some? {
      assert ItemOk(s, ItemOf(s.items, c.luckpkId, c.userId).value);
    }
  }

  /** Writing an item that is not PAYED, before or after, grants nothing. */
  lemma ItemGrants(s: State, t: State, it: LuckItem)
    requires GrantsOk(s)
    requires t.items == s.items[it.id := it] && it.status != PAYED
    requires it.id in s.items ==> s.items[it.id].status != PAYED
    requires t.net.granted == s.net.granted
    requires forall id :: !SettledFor(s, id) && !SettledFor(t, id)
    ensures GrantsOk(t)
  {
    forall id, user ensures GrantOk(t, id, user) {
      assert GrantOk(s, id, user);
      if HasPayed(s, id, user) {
        var i :| i in s.items && s.items[i].luckpkId == id && s.items[i].userId == user && s.items[i].status == PAYED;
        assert t.items[i] == s.items[i];
      }
    }
  }

  lemma StepFail(reg: Registry, s: State, t: State, msg: string)
    requires Inv(reg, s) && s.inside.Some? && s.inside.value.Paying? && t == DoFail(s, msg)
    ensures Inv(reg, t)
  {
    var it := s.inside.value.it.(status := Error, errMsg := msg);
    assert ItemOk(s, it.id);
    UnpaidPackets(s, t, it);
    ItemWritten(s, t, it);
    ItemGrants(s, t, it);
  }

  lemma SettlePackets(s: State, t: State, c: Claim, lk: LuckPk, it: LuckItem, d: Decoded)
    requires PacketsOk(s) && s.inside == Some(Paying(c, lk, it)) && t.inside == Some(Settled(c, lk, it))
    requires c.luckpkId in s.packets && d.assetId == s.packets[c.luckpkId].assetId && it.amt == InvoiceAmt(d)
    requires ValidDecoded(d)
    requires t.packets == s.packets && t.items == s.items && t.net.funded == s.net.funded
    requires t.net.out == s.net.out[c.luckpkId := Out(s, c.luckpkId) + Value(d)]
    ensures PacketsOk(t)
  {
    ValueBounds(d);
    forall id | id in t.packets ensures PacketOk(t, id) {
      assert PacketOk(s, id);
      if id != c.luckpkId {
        PacketKept(s, t, id);
      } else {
        assert PayedAmts(t.items, id) == PayedAmts(s.items, id);
        assert Out(t, id) == Out(s, id) + Value(d);
      }
    }
  }

  lemma StepSettle(reg: Registry, s: State, t: State)
    requires ValidRegistry(reg) && Inv(reg, s) && Enabled(reg, s, Settle) && t == DoSettle(reg, s)
    ensures Inv(reg, t)
  {
    var Paying(c, lk, it) := s.inside.value;
    SettlePackets(s, t, c, lk, it, reg[c.invoice]);
    ItemsKept(s, t);
    SettleGrants(s, t, c, it);
  }

  lemma SettleGrants(s: State, t: State, c: Claim, it: LuckItem)
    requires GrantsOk(s)
    requires t.items == s.items && t.net.granted == s.net.granted + multiset{(c.luckpkId, c.userId)}
    requires s.inside.Some? && s.inside.value.Paying? && t.inside.Some? && t.inside.value.Settled?
    requires t.inside.value.c == c
    ensures GrantsOk(t)
  {
    forall id, user ensures GrantOk(t, id, user) {
      assert GrantOk(s, id, user);
      assert HasPayed(s, id, user) <==> HasPayed(t, id, user);
    }
  }

  lemma SaveItemPackets(s: State, t: State, c: Claim, lk: LuckPk, it: LuckItem)
    requires PacketsOk(s) && s.inside == Some(Settled(c, lk, it)) && it.luckpkId == c.luckpkId
    requires it.id in s.items && s.items[it.id] == it && it.status == PAYING
    requires t.inside == Some(Payed(c, lk, it.(status := PAYED)))
    requires t.packets == s.packets && t.net == s.net && t.items == s.items[it.id := it.(status := PAYED)]
    ensures PacketsOk(t)
  {
    var it' := it.(status := PAYED);
    forall id | id in t.packets ensures PacketOk(t, id) {
      assert PacketOk(s, id);
      if id != c.luckpkId {
        ItemPayedElsewhere(s.items, it', id);
        PacketKept(s, t, id);
      } else {
        ItemPayed(s.items, it', id);
      }
    }
  }

  lemma StepSaveItem(reg: Registry, s: State, t: State)
    requires Inv(reg, s) && s.inside.Some? && s.inside.value.Settled? && t == DoSaveItem(s)
    ensures Inv(reg, t)
  {
    var Settled(c, lk, it) := s.inside.value;
    assert ItemOk(s, it.id);
    SaveItemPackets(s, t, c, lk, it);
    ItemWritten(s, t, it.(status := PAYED));
    SaveItemGrants(s, t, c, it.(status := PAYED));
  }

  lemma SaveItemGrants(s: State, t: State, c: Claim, it: LuckItem)
    requires GrantsOk(s)
    requires ItemsOk(s) && it.id in s.items && s.items[it.id].status != PAYED && it.status == PAYED
    requires it.luckpkId == c.luckpkId == s.items[it.id].luckpkId && it.userId == c.userId == s.items[it.id].userId
    requires t.items == s.items[it.id := it] && t.net.granted == s.net.granted
    requires s.inside.Some? && s.inside.value.Settled? && s.inside.value.c == c
    requires t.inside.Some? && t.inside.value.Payed?
    ensures GrantsOk(t)
  {
    forall id, user ensures GrantOk(t, id, user) {
      assert GrantOk(s, id, user);
      if id == c.luckpkId && user == c.userId {
        assert HasPayed(t, id, user) by { assert t.items[it.id].status == PAYED; }
      } else if HasPayed(s, id, user) {
        var i :| i in s.items && s.items[i].luckpkId == id && s.items[i].userId == user && s.items[i].status == PAYED;
        assert t.items[i] == s.items[i];
      }
    }
  }

  lemma GivenMeans(lk: LuckPk, amt: int)
    requires 0 <= amt <= lk.balance < TWO_64 && 0 <= lk.gives < lk.parts < TWO_64
    ensures Given(lk, amt) == lk.(gives := lk.gives + 1, balance := lk.balance - amt,
                                  status := if lk.gives + 1 == lk.parts then End else lk.status)
  {
    assert U64(amt) == amt && U64(lk.balance - amt) == lk.balance - amt;
    assert U64(lk.gives + 1) == lk.gives + 1;
  }

  lemma SavedPacket(s: State, t: State, c: Claim, lk: LuckPk, it: LuckItem)
    requires s.inside == Some(Payed(c, lk, it)) && lk.id in s.packets && s.packets[lk.id] == lk && lk.id == c.luckpkId
    requires PacketOk(s, lk.id) && lk.status == WorkIng && lk.gives < lk.parts && 0 <= it.amt <= lk.balance
    requires t.inside == None && t.items == s.items && t.net == s.net
    requires t.packets == s.packets[lk.id := Given(lk, it.amt)] && lk.assetId < TWO_32
    ensures PacketOk(t, lk.id)
  {
  }

  lemma SavePacketPackets(s: State, t: State, c: Claim, lk: LuckPk, it: LuckItem)
    requires PacketsOk(s) && s.inside == Some(Payed(c, lk, it)) && t.inside == None
    requires lk.id in s.packets && s.packets[lk.id] == lk && lk.id == c.luckpkId
    requires lk.status == WorkIng && lk.gives < lk.parts && 0 <= it.amt <= lk.balance && lk.assetId < TWO_32
    requires t.items == s.items && t.net == s.net && t.packets == s.packets[lk.id := Given(lk, it.amt)]
    ensures PacketsOk(t)
  {
    assert PacketOk(s, lk.id);
    SavedPacket(s, t, c, lk, it);
    forall id | id in t.packets ensures PacketOk(t, id) {
      if id != lk.id {
        assert PacketOk(s, id);
        PacketKept(s, t, id);
      }
    }
  }

  lemma StepSavePacket(reg: Registry, s: State, t: State)
    requires ValidRegistry(reg) && Inv(reg, s) && s.inside.Some? && s.inside.value.Payed? && t == DoSavePacket(s)
    ensures Inv(reg, t)
  {
    var Payed(c, lk, it) := s.inside.value;
    assert ItemOk(s, it.id);
    assert PacketOk(s, lk.id);
    GivenMeans(lk, it.amt);
    SavePacketPackets(s, t, c, lk, it);
    ItemsKept(s, t);
    GrantsKept(s, t);
  }

  lemma StepInv(reg: Registry, s: State, e: Event, t: State)
    requires ValidRegistry(reg) && Inv(reg, s) && Next(reg, s, e, t)
    ensures Inv(reg, t)
  {
    match e {
      case Create(lk) => StepCreate(reg, s, t, lk);
      case Fund(id) => StepFund(reg, s, t, id);
      case MonitorLoad(_) => StepMonitor(reg, s, e, t);
      case MonitorUpdate(_) => StepMonitor(reg, s, e, t);
      case Begin(now) => StepBegin(reg, s, t, now);
      case Settle => StepSettle(reg, s, t);
      case Fail(msg) => StepFail(reg, s, t, msg);
      case SaveItem => StepSaveItem(reg, s, t);
      case SavePacket => StepSavePacket(reg, s, t);
      case _ => StepClaimant(reg, s, e, t);
    }
  }

  /** The books are right at every program point of every run. */
  lemma {:induction false} LeadsInv(reg: Registry, s: State, n: nat, t: State)
    requires ValidRegistry(reg) && Inv(reg, s) && Leads(reg, s, n, t)
    ensures Inv(reg, t)
  {
    if n > 0 {
      var m, e :| Leads(reg, s, n - 1, m) && Next(reg, m, e, t);
      LeadsInv(reg, s, n - 1, m);
      StepInv(reg, m, e, t);
    }
  }

  lemma ReachableInv(reg: Registry, n: nat, t: State)
    requires ValidRegistry(reg) && Leads(reg, INITIAL, n, t)
    ensures Inv(reg, t)
  {
    LeadsInv(reg, INITIAL, n, t);
  }
}
