/** Red packets: packets and their items, the critical section of GiveLuckPk
    statement by statement, and the monitor that writes packets without the
    lock. */
module LuckPkProtocol {
  import opened Wrappers
  import opened GoInt
  import opened Tables
  import opened Invoices

  datatype PkStatus = INIT | WorkIng | End | Expired | ErrorCreate

  datatype ItemStatus = UNKNOWN | PAYING | PAYED | Error

  /** assetId, amt, balance, parts and gives are uint64, expiredTimeSec int64. */
  datatype LuckPk = LuckPk(id: int, userId: int, assetId: int, amt: int, balance: int, paymentHash: string,
                           parts: int, gives: int, status: PkStatus, expiredTimeSec: int, invoice: string,
                           errorCreateMsg: string)

  datatype LuckItem = LuckItem(id: int, luckpkId: int, userId: int, amt: int, status: ItemStatus, errMsg: string)

  datatype Claim = Claim(luckpkId: int, userId: int, invoice: string)

  datatype Refusal = NoPacket | NotWorking | AllGiven | TimedOut | BeingPaid | AlreadyPaid | BadInvoice
                   | Insufficient | TooMuch | WrongAsset

  // ------------------------------------------------ the checks of GiveLuckPk

  /** First by user and packet. */
  function ItemOf(items: map<int, LuckItem>, luckpkId: int, userId: int): Option<int> {
    First(set i | i in items && items[i].luckpkId == luckpkId && items[i].userId == userId)
  }

  /** The guards between the load of the packet and the first write, in order,
      with Go's arithmetic; the granted amount if all pass.  On unsigned numbers
      the division is reached only with parts above zero. */
  function Check(reg: Registry, lk: LuckPk, item: Option<LuckItem>, c: Claim, now: int): Result<int, Refusal> {
    if lk.status != WorkIng then Err(NotWorking)
    else if lk.gives >= lk.parts then Err(AllGiven)
    else if lk.expiredTimeSec > 0 && now > lk.expiredTimeSec then Err(TimedOut)
    else if item.Some? && item.value.status == PAYING then Err(BeingPaid)
    else if item.Some? && item.value.status == PAYED then Err(AlreadyPaid)
    else if c.invoice !in reg then Err(BadInvoice)
    else CheckAmount(lk, InvoiceAmt(reg[c.invoice]), reg[c.invoice].assetId)
  }

  /** The guards on what the claimant's invoice asks for. */
  function CheckAmount(lk: LuckPk, amt: int, assetId: int): Result<int, Refusal> {
    if I64(I64(lk.balance) - amt) < 0 then Err(Insufficient)
    else if lk.parts > 0 && U64(lk.balance / lk.parts - U64(amt)) < 0 then Err(TooMuch)
    else if lk.assetId != U64(assetId) then Err(WrongAsset)
    else Ok(amt)
  }

  function FindItem(items: map<int, LuckItem>, c: Claim): Option<LuckItem> {
    match ItemOf(items, c.luckpkId, c.userId)
    case None => None
    case Some(i) => Some(items[i])
  }

  /** The item as it is first saved: a row found before is used again. */
  function PayingItem(found: Option<LuckItem>, nextItem: int, c: Claim, amt: int): LuckItem {
    match found
    case None => LuckItem(nextItem, c.luckpkId, c.userId, amt, PAYING, "")
    case Some(it) => it.(amt := amt, status := PAYING)
  }

  /** The packet as it is saved after a payment. */
  function Given(lk: LuckPk, amt: int): LuckPk {
    var gives := U64(lk.gives + 1);
    lk.(gives := gives, balance := U64(lk.balance - U64(amt)),
        status := if gives == lk.parts then End else lk.status)
  }

  // ------------------------------------------------ the monitor

  function ByHash(packets: map<int, LuckPk>, rhash: string): Option<int> {
    First(set i | i in packets && packets[i].paymentHash == rhash)
  }

  /** The handling of a settled invoice, when nothing happens in between. */
  function AfterSettled(packets: map<int, LuckPk>, rhash: string): map<int, LuckPk> {
    match ByHash(packets, rhash)
    case None => packets
    case Some(id) =>
      if packets[id].status != INIT then packets else packets[id := packets[id].(status := WorkIng)]
  }

  // ------------------------------------------------ the state

  /** What happened on the network. */
  datatype Net = Net(
    funded: set<string>,               // settled packet invoices, by payment hash
    paid: set<string>,                 // requests the server has paid
    granted: multiset<(int, int)>,     // settled payments, by packet and user
    out: map<int, int>,                // value paid out of a packet
    cash: map<int, int>)               // received minus paid, per asset

  /** The goroutine that holds payLock. */
  datatype Inside =
    | Locked(c: Claim)                               // about to load the packet
    | Loaded(c: Claim, lk: LuckPk)                   // about to check and save the item
    | Paying(c: Claim, lk: LuckPk, it: LuckItem)     // item saved, Sendpayment called
    | Settled(c: Claim, lk: LuckPk, it: LuckItem)    // the payment has settled
    | Payed(c: Claim, lk: LuckPk, it: LuckItem)      // item saved as PAYED, packet not yet saved

  datatype State = State(
    packets: map<int, LuckPk>,
    items: map<int, LuckItem>,
    nextItem: int,
    inside: Option<Inside>,
    monitor: Option<int>,              // packet the monitor has seen at INIT and is about to update
    net: Net)

  const INITIAL: State := State(map[], map[], 1, None, None, Net({}, {}, multiset{}, map[], map[]))

  function Out(s: State, id: int): int {
    if id in s.net.out then s.net.out[id] else 0
  }

  function Cash(s: State, asset: int): int {
    if asset in s.net.cash then s.net.cash[asset] else 0
  }

  /** The invoice CreateLuckPk asks for. */
  function PacketInvoice(lk: LuckPk): Decoded {
    AddInvoice(U32(lk.assetId), I64(lk.amt), 3600 * 24, lk.paymentHash, 0)
  }

  datatype Event =
    | Create(lk: LuckPk)
    | Fund(id: int)              // the creator settles the packet's invoice
    | MonitorLoad(rhash: string) // the monitor is told of a settled invoice, maybe again
    | MonitorUpdate(ok: bool)    // its partial update, which may fail
    | Enter(c: Claim)            // a claimant gets payLock
    | Load                       // First by id; without a row it returns
    | Begin(now: int)            // the checks, then the item is saved as PAYING
    | Refuse(now: int)           // a check fails and it returns
    | Settle                     // the network settles the payment
    | Fail(msg: string)          // the payment fails, the item is saved as Error, it returns
    | SaveItem                   // the item is saved as PAYED
    | SavePacket                 // the packet is saved, it returns

  /** A new row: INIT, nothing given, the full balance, and any numbers that fit
      their columns. */
  predicate NewPacket(lk: LuckPk) {
    && lk.status == INIT && lk.gives == 0 && lk.balance == lk.amt
    && IsU64(lk.assetId) && IsU64(lk.parts) && IsU64(lk.amt)
  }

  /** The amount fits the invoice: neither the conversion to int64 nor that to
      millisatoshis wraps. */
  predicate Backed(lk: LuckPk) { Scale(U32(lk.assetId)) * lk.amt < TWO_63 }

  function CheckNow(reg: Registry, s: State, now: int): Result<int, Refusal>
    requires s.inside.Some? && s.inside.value.Loaded?
  {
    Check(reg, s.inside.value.lk, FindItem(s.items, s.inside.value.c), s.inside.value.c, now)
  }

  predicate Enabled(reg: Registry, s: State, e: Event) {
    match e
    case Create(lk) =>
      && lk.id > 0 && lk.id !in s.packets && NewPacket(lk) && lk.paymentHash !in s.net.funded
      && forall i :: i in s.packets ==> s.packets[i].paymentHash != lk.paymentHash
    case Fund(id) => id in s.packets && s.packets[id].paymentHash !in s.net.funded
    case MonitorLoad(rhash) => s.monitor == None && rhash in s.net.funded
    case MonitorUpdate(_) => s.monitor.Some?
    case Enter(c) => s.inside == None && c.userId > 0
    case Load => s.inside.Some? && s.inside.value.Locked?
    case Begin(now) => s.inside.Some? && s.inside.value.Loaded? && CheckNow(reg, s, now).Ok?
    case Refuse(now) => s.inside.Some? && s.inside.value.Loaded? && CheckNow(reg, s, now).Err?
    case Settle =>
      && s.inside.Some? && s.inside.value.Paying?
      && s.inside.value.c.invoice in reg && s.inside.value.c.invoice !in s.net.paid
    case Fail(_) => s.inside.Some? && s.inside.value.Paying?
    case SaveItem => s.inside.Some? && s.inside.value.Settled?
    case SavePacket => s.inside.Some? && s.inside.value.Payed?
  }

  function DoFund(s: State, id: int): State
    requires id in s.packets
  {
    var lk := s.packets[id];
    var d := PacketInvoice(lk);
    s.(net := s.net.(funded := s.net.funded + {lk.paymentHash},
                     cash := s.net.cash[d.assetId := Cash(s, d.assetId) + Value(d)]))
  }

  function DoMonitorLoad(s: State, rhash: string): State {
    match ByHash(s.packets, rhash)
    case None => s
    case Some(id) => if s.packets[id].status == INIT then s.(monitor := Some(id)) else s
  }

  function DoMonitorUpdate(s: State, ok: bool): State
    requires s.monitor.Some?
  {
    var id := s.monitor.value;
    s.(packets := if ok && id in s.packets then s.packets[id := s.packets[id].(status := WorkIng)] else s.packets,
       monitor := None)
  }

  function DoLoad(s: State): State
    requires s.inside.Some? && s.inside.value.Locked?
  {
    var c := s.inside.value.c;
    s.(inside := if c.luckpkId in s.packets then Some(Loaded(c, s.packets[c.luckpkId])) else None)
  }

  function DoBegin(s: State, amt: int): State
    requires s.inside.Some? && s.inside.value.Loaded?
  {
    var c := s.inside.value.c;
    var it := PayingItem(FindItem(s.items, c), s.nextItem, c, amt);
    s.(items := s.items[it.id := it],
       nextItem := if it.id == s.nextItem then s.nextItem + 1 else s.nextItem,
       inside := Some(Paying(c, s.inside.value.lk, it)))
  }

  function DoSettle(reg: Registry, s: State): State
    requires s.inside.Some? && s.inside.value.Paying? && s.inside.value.c.invoice in reg
  {
    var Paying(c, lk, it) := s.inside.value;
    var d := reg[c.invoice];
    s.(inside := Some(Settled(c, lk, it)),
       net := s.net.(paid := s.net.paid + {c.invoice},
                     granted := s.net.granted + multiset{(c.luckpkId, c.userId)},
                     out := s.net.out[c.luckpkId := Out(s, c.luckpkId) + Value(d)],
                     cash := s.net.cash[d.assetId := Cash(s, d.assetId) - Value(d)]))
  }

  function DoFail(s: State, msg: string): State
    requires s.inside.Some? && s.inside.value.Paying?
  {
    var it := s.inside.value.it;
    s.(items := s.items[it.id := it.(status := Error, errMsg := msg)], inside := None)
  }

  function DoSaveItem(s: State): State
    requires s.inside.Some? && s.inside.value.Settled?
  {
    var Settled(c, lk, it) := s.inside.value;
    s.(items := s.items[it.id := it.(status := PAYED)], inside := Some(Payed(c, lk, it.(status := PAYED))))
  }

  function DoSavePacket(s: State): State
    requires s.inside.Some? && s.inside.value.Payed?
  {
    var Payed(c, lk, it) := s.inside.value;
    s.(packets := s.packets[lk.id := Given(lk, it.amt)], inside := None)
  }

  function Step(reg: Registry, s: State, e: Event): State
    requires Enabled(reg, s, e)
  {
    match e
    case Create(lk) => s.(packets := s.packets[lk.id := lk])
    case Fund(id) => DoFund(s, id)
    case MonitorLoad(rhash) => DoMonitorLoad(s, rhash)
    case MonitorUpdate(ok) => DoMonitorUpdate(s, ok)
    case Enter(c) => s.(inside := Some(Locked(c)))
    case Load => DoLoad(s)
    case Begin(now) => DoBegin(s, CheckNow(reg, s, now).value)
    case Refuse(_) => s.(inside := None)
    case Settle => DoSettle(reg, s)
    case Fail(msg) => DoFail(s, msg)
    case SaveItem => DoSaveItem(s)
    case SavePacket => DoSavePacket(s)
  }

  ghost predicate Next(reg: Registry, s: State, e: Event, t: State) {
    Enabled(reg, s, e) && t == Step(reg, s, e)
  }

  /** t is reached from s in n steps. */
  ghost predicate Leads(reg: Registry, s: State, n: nat, t: State) {
    if n == 0 then s == t
    else exists m, e :: Leads(reg, s, n - 1, m) && Next(reg, m, e, t)
  }
}
