/** The red-packet half of the server: the methods that work on the two tables.
    Payments and failing writes are oracles; payLock makes GiveLuckPk exclude
    itself. */
module LuckPkServer {
  import opened Wrappers
  import opened GoInt
  import opened Tables
  import opened Invoices
  import opened LuckPkProtocol
  import opened LuckPkInvariant
  import opened Replay

  /** NotSaved: the payment went through and the packet could not be saved. */
  datatype Denied = Refused(why: Refusal) | PaymentFailed(msg: string) | NotSaved

  datatype Rows = Rows(packets: map<int, LuckPk>, items: map<int, LuckItem>, nextItem: int)

  /** What the database does for a claim: whether the lookup of the item works, and
      which saves are taken, that of the item as PAYING, as PAYED or Error, and of
      the packet.  Only the last is looked at; a lookup that fails counts as none
      found. */
  datatype Db = Db(lookup: bool, paying: bool, outcome: bool, packet: bool)

  const ALL_WELL := Db(true, true, true, true)

  function Found(items: map<int, LuckItem>, c: Claim, lookup: bool): Option<LuckItem> {
    if lookup then FindItem(items, c) else None
  }

  function PutItem(s: Rows, it: LuckItem, taken: bool): Rows {
    if !taken then s
    else s.(items := s.items[it.id := it], nextItem := if it.id == s.nextItem then s.nextItem + 1 else s.nextItem)
  }

  /** A claim from the load of the packet to its save.  paid is what Sendpayment
      returns, an error message or nothing. */
  function Give(reg: Registry, s: Rows, c: Claim, now: int, paid: Option<string>, db: Db)
    : (Rows, Result<int, Denied>)
  {
    if c.luckpkId !in s.packets then (s, Err(Refused(NoPacket)))
    else
      var lk := s.packets[c.luckpkId];
      match Check(reg, lk, Found(s.items, c, db.lookup), c, now)
      case Err(why) => (s, Err(Refused(why)))
      case Ok(amt) =>
        var it := PayingItem(Found(s.items, c, db.lookup), s.nextItem, c, amt);
        var last := if paid.Some? then it.(status := LuckPkProtocol.Error, errMsg := paid.value)
                    else it.(status := PAYED);
        var t := PutItem(PutItem(s, it, db.paying), last, db.outcome);
        if paid.Some? then (t, Err(PaymentFailed(paid.value)))
        else if !db.packet then (t, Err(NotSaved))
        else (t.(packets := s.packets[lk.id := Given(lk, amt)]), Ok(amt))
  }

  /** Why a claim is refused: the first of the conditions, in this order, that it
      fails. */
  ghost predicate RefusedFor(reg: Registry, lk: LuckPk, item: Option<LuckItem>, c: Claim, now: int, why: Refusal) {
    var open := lk.status == WorkIng && lk.gives < lk.parts && (lk.expiredTimeSec <= 0 || now <= lk.expiredTimeSec);
    var free := item.None? || (item.value.status != PAYING && item.value.status != PAYED);
    match why
    case NoPacket => false
    case NotWorking => lk.status != WorkIng
    case AllGiven => lk.status == WorkIng && lk.gives == lk.parts
    case TimedOut => lk.status == WorkIng && lk.gives < lk.parts && 0 < lk.expiredTimeSec < now
    case BeingPaid => open && item.Some? && item.value.status == PAYING
    case AlreadyPaid => open && item.Some? && item.value.status == PAYED
    case BadInvoice => open && free && c.invoice !in reg
    case Insufficient => open && free && c.invoice in reg && !Affordable(lk.balance, InvoiceAmt(reg[c.invoice]))
    case TooMuch => false
    case WrongAsset =>
      && open && free && c.invoice in reg && Affordable(lk.balance, InvoiceAmt(reg[c.invoice]))
      && reg[c.invoice].assetId != lk.assetId
  }

  lemma RefusalMeans(reg: Registry, lk: LuckPk, item: Option<LuckItem>, c: Claim, now: int)
    requires ValidRegistry(reg) && IsU64(lk.balance) && 0 <= lk.gives <= lk.parts
    ensures Check(reg, lk, item, c, now).Err? ==>
      RefusedFor(reg, lk, item, c, now, Check(reg, lk, item, c, now).error)
  {
    if c.invoice in reg && lk.parts > 0 {
      ValueBounds(reg[c.invoice]);
      AmountMeans(lk, InvoiceAmt(reg[c.invoice]), reg[c.invoice].assetId);
    }
  }

  class Server {
    var packets: map<int, LuckPk>
    var items: map<int, LuckItem>
    var nextItem: int

    constructor ()
      ensures packets == map[] && items == map[] && nextItem == 1
    {
      packets, items, nextItem := map[], map[], 1;
    }

    /** Issues the invoice and saves the packet with its full balance; saved tells
        whether the database takes the row. */
    method CreateLuckPk(pk: LuckPk, userId: int, issued: Option<(string, string)>, saved: bool)
      returns (res: Option<LuckPk>, asked: Decoded)
      requires pk.id !in packets
      modifies this
      ensures items == old(items) && nextItem == old(nextItem)
      ensures res.Some? <==> issued.Some? && saved
      ensures res.None? ==> packets == old(packets)
      ensures res.Some? ==>
        && packets == old(packets)[pk.id := res.value]
        && res.value == pk.(balance := pk.amt, userId := userId, invoice := issued.value.0,
                            paymentHash := issued.value.1)
        && asked == PacketInvoice(res.value) && asked.paymentHash == issued.value.1 && asked.expiry == 86400
        && asked.assetId == pk.assetId % 0x1_0000_0000
        && (NewPacket(pk.(balance := pk.amt)) ==> NewPacket(res.value))
    {
      var hash := if issued.Some? then issued.value.1 else "";
      asked := AddInvoice(U32(pk.assetId), I64(pk.amt), 3600 * 24, hash, 0);
      if issued.None? {
        return None, asked;
      }
      var row := pk.(invoice := issued.value.0, paymentHash := hash, userId := userId, balance := pk.amt);
      if !saved {
        return None, asked;
      }
      packets := packets[row.id := row];
      res := Some(row);
    }

    method UpdateLuckPkByInvoice(rhash: string, state: InvoiceState, dbOk: bool)
      modifies this`packets
      ensures state == SETTLED && dbOk ==> packets == AfterSettled(old(packets), rhash)
      ensures (state != SETTLED && state != CANCELED) || !dbOk ==> packets == old(packets)
      ensures dbOk && (state == SETTLED || state == CANCELED) ==> forall id :: id in old(packets) ==>
        && id in packets
        && (var lk := old(packets)[id];
            packets[id] == if ByHash(old(packets), rhash) != Some(id) || lk.status != INIT then lk
                           else if state == SETTLED then lk.(status := WorkIng)
                           else lk.(status := ErrorCreate, errorCreateMsg := "Invoice_CANCELED"))
      ensures packets.Keys == old(packets).Keys
    {
      var found := ByHash(packets, rhash);
      if found.None? {
        return;
      }
      var id := found.value;
      var lk := packets[id];
      if lk.status == INIT {
        var status, msg := INIT, "";
        if state == SETTLED {
          status := WorkIng;
        } else if state == CANCELED {
          status, msg := ErrorCreate, "Invoice_CANCELED";
        } else {
          return;
        }
        if dbOk {
          packets := packets[id := lk.(status := status, errorCreateMsg := if msg == "" then lk.errorCreateMsg else msg)];
        }
      }
    }

    method GiveLuckPk(reg: Registry, c: Claim, now: int, paid: Option<string>, db: Db)
      returns (res: Result<int, Denied>)
      modifies this
      ensures (Rows(packets, items, nextItem), res)
           == Give(reg, Rows(old(packets), old(items), old(nextItem)), c, now, paid, db)
    {
      if c.luckpkId !in packets {
        return Err(Refused(NoPacket));
      }
      var lk := packets[c.luckpkId];
      var litem := Found(items, c, db.lookup);
      var checked := Verify(reg, lk, litem, c, now);
      if checked.Err? {
        return Err(Refused(checked.error));
      }
      var amt := checked.value;

      var it := PayingItem(litem, nextItem, c, amt);
      SaveItem(it, db.paying);
      if paid.Some? {
        it := it.(status := LuckPkProtocol.Error, errMsg := paid.value);
        SaveItem(it, db.outcome);
        return Err(PaymentFailed(paid.value));
      }
      it := it.(status := PAYED);
      SaveItem(it, db.outcome);

      lk := lk.(gives := U64(lk.gives + 1), balance := U64(lk.balance - U64(amt)));
      if lk.gives == lk.parts {
        lk := lk.(status := End);
      }
      if !db.packet {
        return Err(NotSaved);
      }
      packets := packets[lk.id := lk];
      res := Ok(amt);
    }

    /** The guards before the first write. */
    method Verify(reg: Registry, lk: LuckPk, litem: Option<LuckItem>, c: Claim, now: int) returns (res: Result<int, Refusal>)
      ensures res == Check(reg, lk, litem, c, now)
      ensures ValidRegistry(reg) && IsU64(lk.balance) && 0 <= lk.gives <= lk.parts ==>
        (res.Ok? <==>
           && lk.status == WorkIng && lk.gives < lk.parts && (lk.expiredTimeSec <= 0 || now <= lk.expiredTimeSec)
           && (litem.Some? ==> litem.value.status != PAYING && litem.value.status != PAYED)
           && c.invoice in reg && Affordable(lk.balance, InvoiceAmt(reg[c.invoice]))
           && reg[c.invoice].assetId == lk.assetId)
      ensures ValidRegistry(reg) && IsU64(lk.balance) && 0 <= lk.gives <= lk.parts && res.Ok? ==>
        res.value == InvoiceAmt(reg[c.invoice]) <= lk.balance
      ensures ValidRegistry(reg) && IsU64(lk.balance) && 0 <= lk.gives <= lk.parts && res.Err? ==>
        RefusedFor(reg, lk, litem, c, now, res.error)
    {
      if ValidRegistry(reg) && IsU64(lk.balance) && 0 <= lk.gives <= lk.parts {
        CheckMeans(reg, lk, litem, c, now);
        RefusalMeans(reg, lk, litem, c, now);
      }
      if lk.status != WorkIng {
        return Err(NotWorking);
      }
      if lk.gives >= lk.parts {
        return Err(AllGiven);
      }
      if lk.expiredTimeSec > 0 && now > lk.expiredTimeSec {
        return Err(TimedOut);
      }
      if litem.Some? {
        if litem.value.status == PAYING {
          return Err(BeingPaid);
        }
        if litem.value.status == PAYED {
          return Err(AlreadyPaid);
        }
      }
      if c.invoice !in reg {
        return Err(BadInvoice);
      }
      var payreq := reg[c.invoice];
      var amt := payreq.amount;
      if payreq.assetId == 0 {
        amt := Quo(payreq.amtMsat, 1000);
      }
      if I64(I64(lk.balance) - amt) < 0 {
        return Err(Insufficient);
      }
      if lk.parts > 0 && U64(lk.balance / lk.parts - U64(amt)) < 0 {
        return Err(TooMuch);
      }
      if lk.assetId != U64(payreq.assetId) {
        return Err(WrongAsset);
      }
      res := Ok(amt);
    }

    /** db.Save of an item: a new one takes the next key. */
    method SaveItem(it: LuckItem, taken: bool)
      modifies this`items, this`nextItem
      ensures Rows(packets, items, nextItem) == PutItem(Rows(packets, old(items), old(nextItem)), it, taken)
    {
      if taken {
        items := items[it.id := it];
        if it.id == nextItem {
          nextItem := nextItem + 1;
        }
      }
    }
  }

  // ------------------------------------------------ what a claim does

  /** With a database that does its work: a claim that is refused changes nothing; one
      whose payment fails leaves the claimant's item at Error with the message, and
      the packet alone; one that is paid leaves the item PAYED and the packet with one
      part and the amount less, ended by its last part.  No other row changes. */
  lemma GiveMeans(reg: Registry, s: Rows, c: Claim, now: int, paid: Option<string>)
    requires Sane(reg, s, c)
    ensures var (t, res) := Give(reg, s, c, now, paid, ALL_WELL);
      if !Passes(reg, s, c, now, true) then
        t == s && res.Err? && res.error.Refused?
        && RefusedFor(reg, s.packets[c.luckpkId], FindItem(s.items, c), c, now, res.error.why)
      else
        var lk, amt := s.packets[c.luckpkId], InvoiceAmt(reg[c.invoice]);
        && OnlyItem(s, t, c, amt, if paid.Some? then LuckPkProtocol.Error else PAYED)
        && (paid.Some? ==> res == Err(PaymentFailed(paid.value)) && t.packets == s.packets
                           && FindItem(t.items, c).value.errMsg == paid.value)
        && (paid.None? ==> FindItem(t.items, c).value.errMsg
                           == if FindItem(s.items, c).Some? then FindItem(s.items, c).value.errMsg else "")
        && (paid.None? ==> res == Ok(amt) && t.packets == s.packets[c.luckpkId := lk.(
              gives := lk.gives + 1, balance := lk.balance - amt,
              status := if lk.gives + 1 == lk.parts then End else WorkIng)])
  {
    RefusalMeans(reg, s.packets[c.luckpkId], FindItem(s.items, c), c, now);
    if Passes(reg, s, c, now, true) {
      var lk, amt := s.packets[c.luckpkId], InvoiceAmt(reg[c.invoice]);
      ClaimItem(reg, s, c, now, true);
      CheckMeans(reg, lk, FindItem(s.items, c), c, now);
      ValueBounds(reg[c.invoice]);
      GivenMeans(lk, amt);
      var it := PayingItem(FindItem(s.items, c), s.nextItem, c, amt);
      var last := if paid.Some? then it.(status := LuckPkProtocol.Error, errMsg := paid.value) else it.(status := PAYED);
      PutFound(s.items, last, c);
      assert s.items[it.id := it][it.id := last] == s.items[it.id := last];
    }
  }

  /** The claimant's row, his old one or a new one, is for this amount and in this
      state, and every other row is as before. */
  ghost predicate OnlyItem(s: Rows, t: Rows, c: Claim, amt: int, status: ItemStatus) {
    var it := FindItem(t.items, c);
    && it.Some? && it.value.amt == amt && it.value.status == status
    && it.value.luckpkId == c.luckpkId && it.value.userId == c.userId
    && it.value.id == (if FindItem(s.items, c).Some? then FindItem(s.items, c).value.id else s.nextItem)
    && t.items == s.items[it.value.id := it.value]
  }

  // ------------------------------------------------ lost saves

  ghost predicate BooksRight(s: Rows, id: int)
    requires id in s.packets
  {
    s.packets[id].balance + Sum(PayedAmts(s.items, id)) == s.packets[id].amt
  }

  /** A packet with sound numbers, and keys that are what they should be. */
  ghost predicate Sane(reg: Registry, s: Rows, c: Claim) {
    && ValidRegistry(reg) && c.luckpkId in s.packets && s.packets[c.luckpkId].id == c.luckpkId
    && (var lk := s.packets[c.luckpkId]; IsU64(lk.balance) && 0 <= lk.gives <= lk.parts < TWO_64)
    && (forall i :: i in s.items ==> s.items[i].id == i && i < s.nextItem && s.items[i].status != UNKNOWN)
  }

  /** The claim passes the checks, with what the lookup of the item says. */
  predicate Passes(reg: Registry, s: Rows, c: Claim, now: int, lookup: bool) {
    c.luckpkId in s.packets && Check(reg, s.packets[c.luckpkId], Found(s.items, c, lookup), c, now).Ok?
  }

  /** The row of a claim: a new one, or the claimant's row at Error. */
  lemma ClaimItem(reg: Registry, s: Rows, c: Claim, now: int, lookup: bool)
    requires Sane(reg, s, c) && Passes(reg, s, c, now, lookup)
    ensures var amt := InvoiceAmt(reg[c.invoice]);
      var it := PayingItem(Found(s.items, c, lookup), s.nextItem, c, amt);
      && it.luckpkId == c.luckpkId && it.userId == c.userId && it.amt == amt && it.status == PAYING
      && (it.id in s.items ==> s.items[it.id].status == LuckPkProtocol.Error && ItemOf(s.items, c.luckpkId, c.userId) == Some(it.id))
      && (it.id !in s.items ==> it.id == s.nextItem && (lookup ==> ItemOf(s.items, c.luckpkId, c.userId) == None))
  {
  }

  /** After a settled payment the packet's books are right exactly if the last
      save of the item and that of the packet have the same fate, and its balance
      has gone down by what was paid exactly if the packet was saved; a claim for
      nothing disturbs neither, and the lookup does not matter. */
  lemma BooksAfterGive(reg: Registry, s: Rows, c: Claim, now: int, db: Db)
    requires Sane(reg, s, c) && Passes(reg, s, c, now, db.lookup) && BooksRight(s, c.luckpkId)
    ensures var t, amt := Give(reg, s, c, now, None, db).0, InvoiceAmt(reg[c.invoice]);
      && c.luckpkId in t.packets
      && (BooksRight(t, c.luckpkId) <==> amt == 0 || db.outcome == db.packet)
      && (t.packets[c.luckpkId].balance == s.packets[c.luckpkId].balance - amt <==> amt == 0 || db.packet)
  {
    var lk, amt := s.packets[c.luckpkId], InvoiceAmt(reg[c.invoice]);
    ClaimItem(reg, s, c, now, db.lookup);
    CheckMeans(reg, lk, Found(s.items, c, db.lookup), c, now);
    ValueBounds(reg[c.invoice]);
    GivenMeans(lk, amt);
    var it := PayingItem(Found(s.items, c, db.lookup), s.nextItem, c, amt);
    PayedAfterSaves(s, it, db, c.luckpkId);
  }

  lemma PayedAfterSaves(s: Rows, it: LuckItem, db: Db, id: int)
    requires it.status == PAYING && it.luckpkId == id && (it.id in s.items ==> s.items[it.id].status != PAYED)
    ensures var t := PutItem(PutItem(s, it, db.paying), it.(status := PAYED), db.outcome);
      && t.packets == s.packets
      && Sum(PayedAmts(t.items, id)) == Sum(PayedAmts(s.items, id)) + if db.outcome then it.amt else 0
  {
    ItemWrite(s.items, it, id);
    ItemPayed(s.items, it.(status := PAYED), id);
    ItemPayed(s.items[it.id := it], it.(status := PAYED), id);
  }

  /** The item found keeps the claimant from another claim. */
  predicate Barred(item: Option<LuckItem>) {
    item.Some? && (item.value.status == PAYING || item.value.status == PAYED)
  }

  /** After a settled payment the claimant's item bars him from another exactly if
      one of the two saves of the item was taken; after a failed lookup of an item
      he has, it is that item, as it was, that decides. */
  lemma BarredIff(reg: Registry, s: Rows, c: Claim, now: int, db: Db)
    requires Sane(reg, s, c) && Passes(reg, s, c, now, db.lookup)
    ensures var t := Give(reg, s, c, now, None, db).0;
      Barred(FindItem(t.items, c)) <==>
        if !db.lookup && FindItem(s.items, c).Some? then Barred(FindItem(s.items, c)) else db.paying || db.outcome
  {
    ClaimItem(reg, s, c, now, db.lookup);
    CheckMeans(reg, s.packets[c.luckpkId], Found(s.items, c, db.lookup), c, now);
    var it := PayingItem(Found(s.items, c, db.lookup), s.nextItem, c, InvoiceAmt(reg[c.invoice]));
    if !db.lookup && FindItem(s.items, c).Some? {
      PutBehind(s.items, it, c);
      PutBehind(s.items, it.(status := PAYED), c);
    } else {
      PutFound(s.items, it, c);
      PutFound(s.items, it.(status := PAYED), c);
    }
    assert s.items[it.id := it][it.id := it.(status := PAYED)] == s.items[it.id := it.(status := PAYED)];
  }

  /** A user who has been paid gets past the checks again if and only if the lookup
      of the item fails and nothing else stands in the way. */
  lemma PaidAgainIff(reg: Registry, s: Rows, c: Claim, now: int, lookup: bool)
    requires FindItem(s.items, c).Some? && FindItem(s.items, c).value.status == PAYED
    ensures Passes(reg, s, c, now, lookup) <==>
      !lookup && c.luckpkId in s.packets && Check(reg, s.packets[c.luckpkId], None, c, now).Ok?
  {
  }

  predicate OwnRow(items: map<int, LuckItem>, c: Claim, i: int) {
    i in items && items[i].luckpkId == c.luckpkId && items[i].userId == c.userId
  }

  ghost predicate TwoRows(items: map<int, LuckItem>, c: Claim) {
    exists i, j :: i != j && OwnRow(items, c, i) && OwnRow(items, c, j)
  }

  /** A claimant with one row at most ends with two exactly if the lookup failed to
      find the one he had, the claim passed, and a save of the item was taken. */
  lemma TwoRowsIff(reg: Registry, s: Rows, c: Claim, now: int, paid: Option<string>, db: Db)
    requires Sane(reg, s, c) && !TwoRows(s.items, c)
    ensures TwoRows(Give(reg, s, c, now, paid, db).0.items, c) <==>
      && !db.lookup && FindItem(s.items, c).Some? && Passes(reg, s, c, now, false) && (db.paying || db.outcome)
  {
    var t := Give(reg, s, c, now, paid, db).0;
    HasRowIff(s.items, c);
    if Passes(reg, s, c, now, db.lookup) {
      ClaimItem(reg, s, c, now, db.lookup);
      var it := PayingItem(Found(s.items, c, db.lookup), s.nextItem, c, InvoiceAmt(reg[c.invoice]));
      OwnRows(s, t, it, c, db.paying || db.outcome);
    } else {
      assert t.items == s.items;
    }
  }

  lemma HasRowIff(items: map<int, LuckItem>, c: Claim)
    ensures FindItem(items, c).Some? <==> exists i :: OwnRow(items, c, i)
    ensures var k := ItemOf(items, c.luckpkId, c.userId);
      k.Some? ==> OwnRow(items, c, k.value) && forall i :: OwnRow(items, c, i) ==> k.value <= i
  {
    var ids := set i | i in items && items[i].luckpkId == c.luckpkId && items[i].userId == c.userId;
    assert forall i :: OwnRow(items, c, i) ==> i in ids;
    if FindItem(items, c).Some? {
      assert OwnRow(items, c, ItemOf(items, c.luckpkId, c.userId).value);
    }
  }

  /** Whose rows there are after the row of a claim was saved, or not. */
  lemma OwnRows(s: Rows, t: Rows, it: LuckItem, c: Claim, taken: bool)
    requires !TwoRows(s.items, c) && it.luckpkId == c.luckpkId && it.userId == c.userId
    requires t.items.Keys == s.items.Keys + (if taken then {it.id} else {})
    requires forall i :: i in s.items && i != it.id ==> t.items[i] == s.items[i]
    requires it.id in t.items ==> OwnRow(t.items, c, it.id)
    requires it.id in s.items ==> OwnRow(s.items, c, it.id)
    ensures TwoRows(t.items, c) <==> taken && it.id !in s.items && exists i :: OwnRow(s.items, c, i)
  {
    forall i | OwnRow(t.items, c, i) && i != it.id ensures OwnRow(s.items, c, i) {
    }
    if i :| taken && it.id !in s.items && OwnRow(s.items, c, i) {
      assert OwnRow(t.items, c, i) && OwnRow(t.items, c, it.id);
    }
  }

  /** A row written behind the one that is found. */
  lemma PutBehind(items: map<int, LuckItem>, it: LuckItem, c: Claim)
    requires FindItem(items, c).Some? && it.id !in items && forall i :: i in items ==> i < it.id
    ensures FindItem(items[it.id := it], c) == FindItem(items, c)
  {
    var after, k := items[it.id := it], ItemOf(items, c.luckpkId, c.userId).value;
    HasRowIff(items, c);
    HasRowIff(after, c);
    assert OwnRow(after, c, k);
    var j := ItemOf(after, c.luckpkId, c.userId).value;
    assert OwnRow(items, c, j);
  }

  /** A claimant's row is found again after it has been written. */
  lemma PutFound(items: map<int, LuckItem>, it: LuckItem, c: Claim)
    requires it.luckpkId == c.luckpkId && it.userId == c.userId
    requires it.id in items ==> ItemOf(items, c.luckpkId, c.userId) == Some(it.id)
    requires it.id !in items ==> ItemOf(items, c.luckpkId, c.userId) == None
    ensures FindItem(items[it.id := it], c) == Some(it)
  {
    var ids := set i | i in items && items[i].luckpkId == c.luckpkId && items[i].userId == c.userId;
    var after := items[it.id := it];
    assert (set i | i in after && after[i].luckpkId == c.luckpkId && after[i].userId == c.userId) == ids + {it.id};
  }

  // ------------------------------------------------ the lock

  /** A claimant that is let in, paid and let out, without anybody acting in
      between, leaves the tables that the method computes. */
  lemma GiveRefines(reg: Registry, s: State, c: Claim, now: int, t: State)
    requires ValidRegistry(reg) && Inv(reg, s) && c.luckpkId in s.packets
    requires s.inside == Some(Loaded(c, s.packets[c.luckpkId]))
    requires CheckNow(reg, s, now).Ok? && c.invoice !in s.net.paid
    requires var amt := CheckNow(reg, s, now).value;
      Enabled(reg, DoBegin(s, amt), Settle) && t == DoSavePacket(DoSaveItem(DoSettle(reg, DoBegin(s, amt))))
    ensures Give(reg, Rows(s.packets, s.items, s.nextItem), c, now, None, ALL_WELL)
         == (Rows(t.packets, t.items, t.nextItem), Ok(InvoiceAmt(reg[c.invoice])))
  {
    BeginAllowed(reg, s, now);
    PaidClaim(reg, s, c, now, t);
  }

  lemma PaidClaim(reg: Registry, s: State, c: Claim, now: int, t: State)
    requires c.luckpkId in s.packets && s.packets[c.luckpkId].id == c.luckpkId && c.invoice in reg
    requires s.inside == Some(Loaded(c, s.packets[c.luckpkId])) && CheckNow(reg, s, now) == Ok(InvoiceAmt(reg[c.invoice]))
    requires t == DoSavePacket(DoSaveItem(DoSettle(reg, DoBegin(s, InvoiceAmt(reg[c.invoice])))))
    ensures Give(reg, Rows(s.packets, s.items, s.nextItem), c, now, None, ALL_WELL)
         == (Rows(t.packets, t.items, t.nextItem), Ok(InvoiceAmt(reg[c.invoice])))
  {
  }

  /** The same for a claim whose payment fails, and for one that is refused. */
  lemma FailureRefines(reg: Registry, s: State, c: Claim, now: int, msg: string)
    requires ValidRegistry(reg) && Inv(reg, s) && c.luckpkId in s.packets
    requires s.inside == Some(Loaded(c, s.packets[c.luckpkId]))
    ensures CheckNow(reg, s, now).Ok? ==>
      var t := DoFail(DoBegin(s, CheckNow(reg, s, now).value), msg);
      Give(reg, Rows(s.packets, s.items, s.nextItem), c, now, Some(msg), ALL_WELL)
      == (Rows(t.packets, t.items, t.nextItem), Err(PaymentFailed(msg)))
    ensures CheckNow(reg, s, now).Err? ==>
      Give(reg, Rows(s.packets, s.items, s.nextItem), c, now, Some(msg), ALL_WELL)
      == (Rows(s.packets, s.items, s.nextItem), Err(Refused(CheckNow(reg, s, now).error)))
  {
  }

  // ------------------------------------------------ settled invoices, replayed

  lemma ByHashStable(packets: map<int, LuckPk>, e: string, rhash: string)
    ensures ByHash(AfterSettled(packets, e), rhash) == ByHash(packets, rhash)
  {
    var after := AfterSettled(packets, e);
    assert (set i | i in after && after[i].paymentHash == rhash)
        == (set i | i in packets && packets[i].paymentHash == rhash);
  }

  lemma SettledAbsorbing()
    ensures Absorbing(AfterSettled)
  {
    forall s: map<int, LuckPk>, e: string ensures AfterSettled(AfterSettled(s, e), e) == AfterSettled(s, e) {
      ByHashStable(s, e, e);
    }
    forall s: map<int, LuckPk>, e: string, e': string | AfterSettled(s, e) == s
      ensures AfterSettled(AfterSettled(s, e'), e) == AfterSettled(s, e') {
      ByHashStable(s, e', e);
      match ByHash(s, e) {
        case None =>
        case Some(id) => assert s[id].status != INIT;
      }
    }
  }

  predicate HashesDiffer(packets: map<int, LuckPk>) {
    forall i, j :: i in packets && j in packets && packets[i].paymentHash == packets[j].paymentHash ==> i == j
  }

  lemma SettledRow(packets: map<int, LuckPk>, rhash: string, id: int)
    requires HashesDiffer(packets) && id in packets
    ensures var after := AfterSettled(packets, rhash);
      && HashesDiffer(after) && id in after
      && after[id] == if packets[id].status == INIT && packets[id].paymentHash == rhash
                      then packets[id].(status := WorkIng) else packets[id]
  {
    var ids := set i | i in packets && packets[i].paymentHash == rhash;
    if packets[id].paymentHash == rhash {
      assert id in ids;
    }
  }

  /** What any log does to a packet: one at INIT whose hash occurs in it starts to
      work, and nothing else changes. */
  lemma {:induction false} LogStarts(packets: map<int, LuckPk>, log: seq<string>, id: int)
    requires HashesDiffer(packets) && id in packets
    ensures var after := Apply(AfterSettled, packets, log);
      && id in after
      && after[id] == if packets[id].status == INIT && packets[id].paymentHash in log
                      then packets[id].(status := WorkIng) else packets[id]
    decreases log
  {
    if log != [] {
      SettledRow(packets, log[0], id);
      LogStarts(AfterSettled(packets, log[0]), log[1..], id);
      assert log == [log[0]] + log[1..];
    }
  }

  /** The monitor's two steps, with nothing in between and the write taken, are the
      handler of one settled invoice. */
  lemma MonitorRefines(s: State, rhash: string)
    requires s.monitor == None && forall id :: id in s.packets ==> s.packets[id].id == id
    ensures var m := DoMonitorLoad(s, rhash);
      (if m.monitor.Some? then DoMonitorUpdate(m, true) else m) == s.(packets := AfterSettled(s.packets, rhash))
  {
  }

  /** The packet table does not notice duplicated events or reconnects. */
  lemma LuckPkReplay(packets: map<int, LuckPk>, history: seq<string>, cuts: seq<nat>)
    requires forall k :: 0 <= k < |cuts| ==> cuts[k] <= |history|
    ensures Furthest(cuts) <= |history|
    ensures Apply(AfterSettled, packets, Connections(history, cuts))
         == Apply(AfterSettled, packets, Fresh(history[..Furthest(cuts)], {}))
  {
    SettledAbsorbing();
    ReconnectsIgnored(AfterSettled, packets, history, cuts);
    DuplicatesIgnored(AfterSettled, packets, history[..Furthest(cuts)]);
  }
}
