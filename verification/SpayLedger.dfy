/** The money of the agency payments: the server's cash per asset against what
    it owes, over all runs, and under which conditions nothing is paid twice or in
    another asset. */
module SpayLedger {
  import opened Wrappers
  import opened Tables
  import opened Invoices
  import opened SpayProtocol
  import opened SpayInvariant
  import opened SpayAlways
  import opened SpayTheorems
  import opened SpayRefund

  // ------------------------------------------------ cash by spay

  /** What settling request p moves of an asset. */
  function Moves(reg: Registry, p: string, asset: int): int {
    if p in reg && reg[p].assetId == asset then Value(reg[p]) else 0
  }

  function MovesAll(reg: Registry, ps: seq<string>, asset: int): int
    decreases ps
  {
    if ps == [] then 0 else Moves(reg, ps[0], asset) + MovesAll(reg, ps[1..], asset)
  }

  lemma {:induction false} MovesAppend(reg: Registry, ps: seq<string>, p: string, asset: int)
    ensures MovesAll(reg, ps + [p], asset) == MovesAll(reg, ps, asset) + Moves(reg, p, asset)
    decreases ps
  {
    if ps == [] {
      assert [] + [p] == [p] && [p][1..] == [];
    } else {
      assert (ps + [p])[1..] == ps[1..] + [p] && (ps + [p])[0] == ps[0];
      MovesAppend(reg, ps[1..], p, asset);
    }
  }

  /** Received for a spay minus paid for it. */
  function RowNet(reg: Registry, s: State, id: int, asset: int): int
    requires id in s.spays
  {
    var r := s.spays[id];
    (if r.siPayHash in s.received then Moves(reg, r.servInvoice, asset) else 0)
    - (if PaidToPayee(s, id) then Moves(reg, r.userInvoice, asset) else 0)
    - MovesAll(reg, Refunds(s, id), asset)
  }

  ghost function Net(reg: Registry, s: State, asset: int): map<int, int> {
    map id | id in s.spays :: RowNet(reg, s, id, asset)
  }

  /** The running totals agree with the spays' histories. */
  ghost predicate Balanced(reg: Registry, s: State) {
    forall asset :: Cash(s, asset) == Sum(Net(reg, s, asset))
  }

  /** One row's history may have grown, moving cash with it. */
  lemma BalancedUpdate(reg: Registry, s: State, t: State, id: int, asset: int)
    requires Balanced(reg, s) && id in s.spays && t.spays.Keys == s.spays.Keys
    requires forall i :: i in s.spays && i != id ==> RowNet(reg, t, i, asset) == RowNet(reg, s, i, asset)
    requires Cash(t, asset) - Cash(s, asset) == RowNet(reg, t, id, asset) - RowNet(reg, s, id, asset)
    ensures Cash(t, asset) == Sum(Net(reg, t, asset))
  {
    NetUpdated(reg, s, t, id, asset);
    SumUpdate(Net(reg, s, asset), id, RowNet(reg, t, id, asset));
  }

  lemma NetUpdated(reg: Registry, s: State, t: State, id: int, asset: int)
    requires id in s.spays && t.spays.Keys == s.spays.Keys
    requires forall i :: i in s.spays && i != id ==> RowNet(reg, t, i, asset) == RowNet(reg, s, i, asset)
    ensures Net(reg, t, asset) == Net(reg, s, asset)[id := RowNet(reg, t, id, asset)]
  {
  }

  lemma BalancedStill(reg: Registry, s: State, t: State)
    requires Balanced(reg, s) && Plain(s, t)
    ensures Balanced(reg, t)
  {
    forall asset ensures Cash(t, asset) == Sum(Net(reg, t, asset)) {
      forall id | id in s.spays ensures RowNet(reg, t, id, asset) == RowNet(reg, s, id, asset) {
        RowNetStill(reg, s, t, id, asset);
      }
      NetSame(reg, s, t, asset);
    }
  }

  lemma RowNetStill(reg: Registry, s: State, t: State, id: int, asset: int)
    requires id in s.spays && Plain(s, t)
    ensures RowNet(reg, t, id, asset) == RowNet(reg, s, id, asset)
  {
  }

  lemma NetSame(reg: Registry, s: State, t: State, asset: int)
    requires t.spays.Keys == s.spays.Keys
    requires forall id :: id in s.spays ==> RowNet(reg, t, id, asset) == RowNet(reg, s, id, asset)
    ensures Net(reg, t, asset) == Net(reg, s, asset)
  {
  }

  lemma BalancedCreate(reg: Registry, s: State, t: State, id: int, r: Spay)
    requires Balanced(reg, s) && KeysOk(s) && id !in s.spays && t == s.(spays := s.spays[id := r])
    requires r.siPayHash !in s.received
    ensures Balanced(reg, t)
  {
    forall asset ensures Cash(t, asset) == Sum(Net(reg, t, asset)) {
      CreateNet(reg, s, t, id, r, asset);
      NetAdded(reg, s, t, id, asset);
      SumUpdate(Net(reg, s, asset), id, 0);
    }
  }

  lemma CreateNet(reg: Registry, s: State, t: State, id: int, r: Spay, asset: int)
    requires KeysOk(s) && id !in s.spays && t == s.(spays := s.spays[id := r]) && r.siPayHash !in s.received
    ensures RowNet(reg, t, id, asset) == 0
    ensures forall i :: i in s.spays ==> RowNet(reg, t, i, asset) == RowNet(reg, s, i, asset)
  {
  }

  lemma NetAdded(reg: Registry, s: State, t: State, id: int, asset: int)
    requires t.spays.Keys == s.spays.Keys + {id} && id !in s.spays && RowNet(reg, t, id, asset) == 0
    requires forall i :: i in s.spays ==> RowNet(reg, t, i, asset) == RowNet(reg, s, i, asset)
    ensures Net(reg, t, asset) == Net(reg, s, asset)[id := 0]
  {
  }

  lemma BalancedPayServer(reg: Registry, s: State, t: State, id: int, payerAddr: string)
    requires Balanced(reg, s) && KeysOk(s) && Enabled(reg, s, PayServer(id, payerAddr))
    requires t == Step(reg, s, PayServer(id, payerAddr))
    ensures Balanced(reg, t)
  {
    forall asset ensures Cash(t, asset) == Sum(Net(reg, t, asset)) {
      PayServerNet(reg, s, t, id, payerAddr, asset);
      BalancedUpdate(reg, s, t, id, asset);
    }
  }

  lemma PayServerNet(reg: Registry, s: State, t: State, id: int, payerAddr: string, asset: int)
    requires KeysOk(s) && Enabled(reg, s, PayServer(id, payerAddr)) && t == Step(reg, s, PayServer(id, payerAddr))
    ensures forall i :: i in s.spays && i != id ==> RowNet(reg, t, i, asset) == RowNet(reg, s, i, asset)
    ensures Cash(t, asset) - Cash(s, asset) == RowNet(reg, t, id, asset) - RowNet(reg, s, id, asset)
  {
  }

  lemma SettleNet(reg: Registry, s: State, t: State, w: int, asset: int)
    requires CanSettle(reg, s, w) && t == DoSettle(reg, s, w)
    requires var q := Head(s, w); q.id in s.spays && s.spays[q.id].userInvoice == q.userInvoice
    requires !s.workers[w].kind.Refund? ==> !PaidToPayee(s, Head(s, w).id)
    ensures var id := Head(s, w).id;
      RowNet(reg, t, id, asset) == RowNet(reg, s, id, asset) - Moves(reg, HeadTarget(s, w), asset)
    ensures Cash(t, asset) == Cash(s, asset) - Moves(reg, HeadTarget(s, w), asset)
  {
    if s.workers[w].kind.Refund? {
      MovesAppend(reg, Refunds(s, Head(s, w).id), HeadTarget(s, w), asset);
    }
  }

  lemma SettleNetOthers(reg: Registry, s: State, t: State, w: int, asset: int)
    requires CanSettle(reg, s, w) && t == DoSettle(reg, s, w)
    ensures forall i :: i in s.spays && i != Head(s, w).id ==> RowNet(reg, t, i, asset) == RowNet(reg, s, i, asset)
  {
  }

  lemma BalancedSettle(reg: Registry, s: State, t: State, w: int)
    requires Balanced(reg, s) && RowsSound(reg, s) && WorkersSound(reg, s) && CanSettle(reg, s, w) && t == DoSettle(reg, s, w)
    ensures Balanced(reg, t)
  {
    var q := Head(s, w);
    assert WorkerSound(reg, s, w) && HeldSound(s, s.workers[w].todo[0]) && RowSound(reg, s, q.id);
    forall asset ensures Cash(t, asset) == Sum(Net(reg, t, asset)) {
      SettleNet(reg, s, t, w, asset);
      SettleNetOthers(reg, s, t, w, asset);
      BalancedUpdate(reg, s, t, q.id, asset);
    }
  }

  lemma StepBalanced(reg: Registry, s: State, e: Event, t: State)
    requires Sound(reg, s) && Balanced(reg, s) && Enabled(reg, s, e) && t == Step(reg, s, e)
    ensures Balanced(reg, t)
  {
    if Quiescent(e) {
      StepPlain(reg, s, e, t);
      BalancedStill(reg, s, t);
    } else if e.Work? {
      BalancedSettle(reg, s, t, e.w);
    } else {
      BalancedNews(reg, s, e, t);
    }
  }

  lemma BalancedNews(reg: Registry, s: State, e: Event, t: State)
    requires Balanced(reg, s) && KeysOk(s) && Enabled(reg, s, e) && t == Step(reg, s, e)
    requires e.Create? || e.PayServer?
    ensures Balanced(reg, t)
  {
    match e {
      case Create(id, _, _, _) => BalancedCreate(reg, s, t, id, t.spays[id]);
      case PayServer(id, payerAddr) => BalancedPayServer(reg, s, t, id, payerAddr);
    }
  }

  // ------------------------------------------------ payer invoices

  /** A payer invoice that was accepted is for the amount of the spay and, when
      payers answer in the asset they were asked for, in its asset. */
  predicate InvoiceOk(reg: Registry, q: Spay, p: string, same: bool) {
    && p in reg && q.userInvoice in reg && InvoiceAmt(reg[p]) == InvoiceAmt(reg[q.userInvoice])
    && (same ==> reg[p].assetId == reg[q.userInvoice].assetId)
  }

  predicate PayerOk(reg: Registry, q: Spay, same: bool) {
    q.payerInvoice != "" ==> InvoiceOk(reg, q, q.payerInvoice, same)
  }

  predicate PayersOk(reg: Registry, s: State, same: bool) {
    && (forall id :: id in s.spays ==> PayerOk(reg, s.spays[id], same))
    && (forall h :: h in s.answers ==> PayerOk(reg, s.answers[h], same))
    && (forall w :: w in s.workers ==> forall k :: 0 <= k < |s.workers[w].todo| ==> PayerOk(reg, s.workers[w].todo[k], same))
    && (forall id :: id in s.spays ==> forall k :: 0 <= k < |Refunds(s, id)| ==> InvoiceOk(reg, s.spays[id], Refunds(s, id)[k], same))
  }

  /** Rows keep their payer invoice; rows in hand come from the table. */
  predicate PayerStill(s: State, t: State) {
    && t.refunds == s.refunds && t.answers == s.answers && s.spays.Keys <= t.spays.Keys
    && (forall id :: id in s.spays ==>
          SameSpay(s.spays[id], t.spays[id]) && t.spays[id].payerInvoice == s.spays[id].payerInvoice)
    && (forall id :: id in t.spays && id !in s.spays ==> t.spays[id].payerInvoice == "")
    && (forall w :: w in t.workers ==> forall k :: 0 <= k < |t.workers[w].todo| ==>
          var q := t.workers[w].todo[k];
          (w in s.workers && q in s.workers[w].todo) || (q.id in t.spays && t.spays[q.id] == q))
  }

  lemma PayersKept(reg: Registry, s: State, t: State, same: bool)
    requires PayersOk(reg, s, same) && PayerStill(s, t) && KeysOk(s)
    ensures PayersOk(reg, t, same)
  {
    forall id | id in t.spays ensures PayerOk(reg, t.spays[id], same) {
      if id in s.spays {
        assert PayerOk(reg, s.spays[id], same);
      }
    }
    forall w | w in t.workers
      ensures forall k :: 0 <= k < |t.workers[w].todo| ==> PayerOk(reg, t.workers[w].todo[k], same) {
    }
    forall id | id in t.spays
      ensures forall k :: 0 <= k < |Refunds(t, id)| ==> InvoiceOk(reg, t.spays[id], Refunds(t, id)[k], same) {
      if id !in s.spays {
        assert Refunds(t, id) == [];
      } else {
        assert Refunds(t, id) == Refunds(s, id) && SameSpay(s.spays[id], t.spays[id]);
        assert forall k :: 0 <= k < |Refunds(s, id)| ==> InvoiceOk(reg, s.spays[id], Refunds(s, id)[k], same);
      }
    }
  }

  lemma PayersSettle(reg: Registry, s: State, t: State, w: int, same: bool)
    requires ValidRegistry(reg) && PayersOk(reg, s, same) && CanSettle(reg, s, w) && WorkerSound(reg, s, w)
    requires t == DoSettle(reg, s, w)
    ensures PayersOk(reg, t, same)
  {
    var q := Head(s, w);
    assert HeldSound(s, s.workers[w].todo[0]) && PayerOk(reg, s.workers[w].todo[0], same);
    forall id | id in t.spays
      ensures forall k :: 0 <= k < |Refunds(t, id)| ==> InvoiceOk(reg, t.spays[id], Refunds(t, id)[k], same) {
      if id == q.id && s.workers[w].kind.Refund? {
        assert Refunds(t, id) == Refunds(s, id) + [q.payerInvoice];
      } else {
        assert Refunds(t, id) == Refunds(s, id);
      }
    }
    forall v | v in t.workers
      ensures forall k :: 0 <= k < |t.workers[v].todo| ==> PayerOk(reg, t.workers[v].todo[k], same) {
      assert t.workers[v].todo == s.workers[v].todo;
    }
  }

  lemma PayersLoad(reg: Registry, s: State, t: State, h: int, id: int, payReq: string, same: bool)
    requires PayersOk(reg, s, same) && Enabled(reg, s, LoadAnswer(h, id, payReq)) && RowSound(reg, s, id)
    requires same ==> SameAsset(reg, s, LoadAnswer(h, id, payReq))
    requires t == s.(answers := s.answers[h := Answered(reg, s.spays[id], payReq).value])
    ensures PayersOk(reg, t, same)
  {
    assert InvoiceOk(reg, s.spays[id], payReq, same);
    assert PayerOk(reg, t.answers[h], same);
    assert forall i :: Refunds(t, i) == Refunds(s, i);
  }

  lemma PayersSave(reg: Registry, s: State, t: State, h: int, same: bool)
    requires PayersOk(reg, s, same) && h in s.answers && AnswerSound(s, s.answers[h])
    requires t == s.(spays := s.spays[s.answers[h].id := s.answers[h]], answers := s.answers - {h})
    ensures PayersOk(reg, t, same)
  {
    assert PayerOk(reg, s.answers[h], same);
    forall id | id in t.spays
      ensures forall k :: 0 <= k < |Refunds(t, id)| ==> InvoiceOk(reg, t.spays[id], Refunds(t, id)[k], same) {
      assert Refunds(t, id) == Refunds(s, id);
    }
  }

  lemma PayerStillWork(reg: Registry, s: State, t: State, w: int, act: Action)
    requires CanDo(reg, s, w, act) && t == Do(reg, s, w, act) && !act.Settle? && Extends(s, t)
    ensures PayerStill(s, t)
  {
  }

  lemma PayerStillDeliver(s: State, t: State, rhash: string, w: int)
    requires KeysOk(s) && rhash in s.received && t == DoDeliver(s, rhash, w) && Extends(s, t)
    requires forall id :: id in s.spays ==> s.spays[id].id == id
    ensures PayerStill(s, t)
  {
    DeliverFinds(s, rhash);
    var id := ByHash(s.spays, rhash).value;
    if s.spays[id].status == PayINIT {
      var sp := Updates(s.spays[id], SettledPatch(s.received[rhash]));
      PayerStillDelivered(s, t, id, w, sp);
    }
  }

  lemma PayerStillDelivered(s: State, t: State, id: int, w: int, sp: Spay)
    requires id in s.spays && sp.id == id && sp.payerInvoice == s.spays[id].payerInvoice && Extends(s, t)
    requires t.spays == s.spays[id := sp] && t.workers == s.workers[w := Worker(Monitor, [sp], Ready)]
    requires t.refunds == s.refunds && t.answers == s.answers
    ensures PayerStill(s, t)
  {
  }

  lemma StepPayers(reg: Registry, s: State, e: Event, t: State, same: bool)
    requires ValidRegistry(reg) && Sound(reg, s) && PayersOk(reg, s, same) && Extends(s, t)
    requires Enabled(reg, s, e) && t == Step(reg, s, e) && (same ==> SameAsset(reg, s, e))
    ensures PayersOk(reg, t, same)
  {
    match e {
      case LoadAnswer(h, id, payReq) => PayersAnswer(reg, s, e, t, same);
      case SaveAnswer(h) => PayersAnswer(reg, s, e, t, same);
      case Work(w, act) => PayersWork(reg, s, t, w, act, same);
      case _ =>
        PayerStillElse(reg, s, e, t);
        PayersKept(reg, s, t, same);
    }
  }

  lemma PayersAnswer(reg: Registry, s: State, e: Event, t: State, same: bool)
    requires RowsSound(reg, s) && AnswersSound(s) && PayersOk(reg, s, same)
    requires Enabled(reg, s, e) && t == Step(reg, s, e) && (same ==> SameAsset(reg, s, e)) && (e.LoadAnswer? || e.SaveAnswer?)
    ensures PayersOk(reg, t, same)
  {
    match e {
      case LoadAnswer(h, id, payReq) => PayersLoad(reg, s, t, h, id, payReq, same);
      case SaveAnswer(h) => PayersSave(reg, s, t, h, same);
    }
  }

  lemma PayerStillElse(reg: Registry, s: State, e: Event, t: State)
    requires RowsSound(reg, s) && KeysOk(s) && Extends(s, t) && Enabled(reg, s, e) && t == Step(reg, s, e)
    requires !e.LoadAnswer? && !e.SaveAnswer? && !e.Work?
    ensures PayerStill(s, t)
  {
    if e.Deliver? {
      assert forall id :: id in s.spays ==> RowSound(reg, s, id) && s.spays[id].id == id;
      PayerStillDeliver(s, t, e.rhash, e.w);
    }
  }

  lemma PayersWork(reg: Registry, s: State, t: State, w: int, act: Action, same: bool)
    requires ValidRegistry(reg) && Sound(reg, s) && PayersOk(reg, s, same) && Extends(s, t)
    requires CanDo(reg, s, w, act) && t == Do(reg, s, w, act)
    ensures PayersOk(reg, t, same)
  {
    if act.Settle? {
      assert WorkerSound(reg, s, w);
      PayersSettle(reg, s, t, w, same);
    } else {
      PayerStillWork(reg, s, t, w, act);
      PayersKept(reg, s, t, same);
    }
  }

  // ------------------------------------------------ what is owed

  function One(b: bool): int { if b then 1 else 0 }

  /** The payer has paid and neither side has been paid back. */
  function Owed(s: State, id: int): int
    requires id in s.spays
  {
    if Arrived(s, s.spays[id]) && !PaidToPayee(s, id) && !PaidToPayer(s, id) then s.spays[id].amt else 0
  }

  ghost function OwedOf(s: State, asset: int): map<int, int> {
    map id | id in s.spays :: if s.spays[id].assetId == asset then Owed(s, id) else 0
  }

  /** The spays that have been paid, to either side. */
  ghost function PayoutsOf(s: State, asset: int): map<int, int> {
    map id | id in s.spays ::
      if s.spays[id].assetId == asset then One(PaidToPayee(s, id) || PaidToPayer(s, id)) else 0
  }

  /** The refunds beyond the first payment for the spay. */
  function Repeats(s: State, id: int): seq<string> {
    if PaidToPayee(s, id) || Refunds(s, id) == [] then Refunds(s, id) else Refunds(s, id)[1..]
  }

  predicate AtHome(reg: Registry, r: Spay, p: string) { p in reg && reg[p].assetId == r.assetId }

  /** What request p moves of an asset in place of what is due: in another asset,
      its value there, and the amount still there in the spay's own. */
  function Stray(reg: Registry, r: Spay, p: string, asset: int): int {
    if AtHome(reg, r, p) then 0
    else Moves(reg, p, asset) - if asset == r.assetId then Scale(asset) * r.amt else 0
  }

  /** What was paid for a spay beyond what was due: a first refund in another
      asset, and every payment after the first. */
  function RowExcess(reg: Registry, s: State, id: int, asset: int): int
    requires id in s.spays
  {
    (if PaidToPayee(s, id) || Refunds(s, id) == [] then 0 else Stray(reg, s.spays[id], Refunds(s, id)[0], asset))
    + MovesAll(reg, Repeats(s, id), asset)
  }

  ghost function ExcessOf(reg: Registry, s: State, asset: int): map<int, int> {
    map id | id in s.spays :: RowExcess(reg, s, id, asset)
  }

  /** The cash is what is owed, for bitcoin up to less than a satoshi per payout. */
  predicate Covers(cash: int, owed: int, payouts: int, asset: int) {
    if asset == 0 then 1000 * owed - 999 * payouts <= cash <= 1000 * owed else cash == owed
  }

  lemma ServInvoiceValue(reg: Registry, r: Spay)
    requires FixedOk(reg, r) && ValidDecoded(reg[r.userInvoice])
    ensures reg[r.servInvoice].assetId == r.assetId == reg[r.userInvoice].assetId
    ensures Value(reg[r.servInvoice]) == Scale(r.assetId) * r.amt
  {
    ValueBounds(reg[r.userInvoice]);
  }

  /** Every refund was for the amount of the spay. */
  predicate RefundsOk(reg: Registry, s: State, id: int)
    requires id in s.spays
  {
    forall k :: 0 <= k < |Refunds(s, id)| ==> InvoiceOk(reg, s.spays[id], Refunds(s, id)[k], false)
  }

  /** The two invoices a spay may be paid with move its amount, and less than a
      satoshi more. */
  lemma DueValue(reg: Registry, r: Spay, p: string)
    requires ValidRegistry(reg) && FixedOk(reg, r) && InvoiceOk(reg, r, p, false) && AtHome(reg, r, p)
    ensures Moves(reg, p, r.assetId) == Value(reg[p]) >= Scale(r.assetId) * r.amt
    ensures r.assetId != 0 ==> Value(reg[p]) == r.amt
    ensures r.assetId == 0 ==> Value(reg[p]) <= 1000 * r.amt + 999
  {
    ValueBounds(reg[p]);
  }

  /** With what was paid beyond what was due, a spay's cash is what it is owed. */
  lemma RowBound(reg: Registry, s: State, id: int, asset: int)
    requires ValidRegistry(reg) && id in s.spays && RowSound(reg, s, id) && RefundsOk(reg, s, id)
    ensures Covers(RowNet(reg, s, id, asset) + RowExcess(reg, s, id, asset),
                   if s.spays[id].assetId == asset then Owed(s, id) else 0,
                   if s.spays[id].assetId == asset then One(PaidToPayee(s, id) || PaidToPayer(s, id)) else 0, asset)
  {
    var r := s.spays[id];
    ServInvoiceValue(reg, r);
    DueValue(reg, r, r.userInvoice);
    if !PaidToPayee(s, id) && PaidToPayer(s, id) {
      var p := Refunds(s, id)[0];
      assert InvoiceOk(reg, r, p, false);
      assert MovesAll(reg, Refunds(s, id), asset) == Moves(reg, p, asset) + MovesAll(reg, Refunds(s, id)[1..], asset);
      if AtHome(reg, r, p) {
        DueValue(reg, r, p);
      }
    }
  }

  // ------------------------------------------------ over all runs

  ghost predicate Books(env: Env, s: State) {
    Sound(env.reg, s) && Balanced(env.reg, s) && PayersOk(env.reg, s, env.sameAsset)
  }

  lemma NextBooks(env: Env, s: State, e: Event, t: State)
    requires ValidRegistry(env.reg) && Books(env, s) && Next(env, s, e, t)
    ensures Books(env, t)
  {
    StepSound(env.reg, s, e, t);
    StepBalanced(env.reg, s, e, t);
    StepPayers(env.reg, s, e, t, env.sameAsset);
  }

  lemma LastBooks(env: Env, s: State, n: nat, t: State) returns (m: State)
    requires ValidRegistry(env.reg) && n > 0 && Leads(env, s, n, t)
    ensures Leads(env, s, n - 1, m) && (Books(env, m) ==> Books(env, t))
  {
    var e;
    m, e :| Leads(env, s, n - 1, m) && Next(env, m, e, t);
    if Books(env, m) {
      NextBooks(env, m, e, t);
    }
  }

  lemma {:induction false} LeadsBooks(env: Env, s: State, n: nat, t: State)
    requires ValidRegistry(env.reg) && Books(env, s) && Leads(env, s, n, t)
    ensures Books(env, t)
  {
    if n > 0 {
      var m := LastBooks(env, s, n, t);
      LeadsBooks(env, s, n - 1, m);
    }
  }

  lemma ReachableBooks(env: Env, n: nat, t: State)
    requires ValidRegistry(env.reg) && Reachable(env, n, t)
    ensures Books(env, t)
  {
    var clock :| clock > 0 && Leads(env, Init(clock), n, t);
    LeadsBooks(env, Init(clock), n, t);
  }

  lemma RowBooks(env: Env, s: State, id: int)
    requires ValidRegistry(env.reg) && Books(env, s) && id in s.spays
    ensures RowSound(env.reg, s, id) && RefundsOk(env.reg, s, id)
  {
    forall k | 0 <= k < |Refunds(s, id)| ensures InvoiceOk(env.reg, s.spays[id], Refunds(s, id)[k], false) {
      assert InvoiceOk(env.reg, s.spays[id], Refunds(s, id)[k], env.sameAsset);
    }
  }

  /** Conservation for every asset but bitcoin, in every state of every run,
      whatever is lost, late, stale or answered in another asset: what was received
      and not paid out, with what was paid beyond what was due, is what is owed. */
  lemma AssetConserved(env: Env, n: nat, t: State, asset: int)
    requires ValidRegistry(env.reg) && Reachable(env, n, t) && asset != 0
    ensures Cash(t, asset) + Sum(ExcessOf(env.reg, t, asset)) == Sum(OwedOf(t, asset))
  {
    ReachableBooks(env, n, t);
    forall id | id in t.spays
      ensures OwedOf(t, asset)[id] == Net(env.reg, t, asset)[id] + ExcessOf(env.reg, t, asset)[id] {
      RowBooks(env, t, id);
      RowBound(env.reg, t, id, asset);
    }
    SumAdd(Net(env.reg, t, asset), ExcessOf(env.reg, t, asset), OwedOf(t, asset));
  }

  ghost function FullOf(reg: Registry, s: State, asset: int): map<int, int> {
    map id | id in s.spays :: Net(reg, s, asset)[id] + ExcessOf(reg, s, asset)[id]
  }

  /** The same for bitcoin, in millisatoshis: less than a satoshi is lost on a
      spay that was paid, and nothing is gained. */
  lemma BitcoinConserved(env: Env, n: nat, t: State)
    requires ValidRegistry(env.reg) && Reachable(env, n, t)
    ensures Covers(Cash(t, 0) + Sum(ExcessOf(env.reg, t, 0)), Sum(OwedOf(t, 0)), Sum(PayoutsOf(t, 0)), 0)
  {
    ReachableBooks(env, n, t);
    FullBetween(env, t);
    SumAdd(Net(env.reg, t, 0), ExcessOf(env.reg, t, 0), FullOf(env.reg, t, 0));
  }

  lemma FullBetween(env: Env, s: State)
    requires ValidRegistry(env.reg) && Books(env, s)
    ensures Covers(Sum(FullOf(env.reg, s, 0)), Sum(OwedOf(s, 0)), Sum(PayoutsOf(s, 0)), 0)
  {
    var owed, payouts, full := OwedOf(s, 0), PayoutsOf(s, 0), FullOf(env.reg, s, 0);
    forall id | id in s.spays ensures 1000 * owed[id] - 999 * payouts[id] <= full[id] <= 1000 * owed[id] {
      RowBooks(env, s, id);
      RowBound(env.reg, s, id, 0);
    }
    Between(owed, payouts, full);
  }

  // ------------------------------------------------ when nothing is in excess

  /** The cash of one spay is what it is owed, in every asset. */
  ghost predicate Right(reg: Registry, s: State, id: int)
    requires id in s.spays
  {
    forall asset ::
      Covers(RowNet(reg, s, id, asset), if s.spays[id].assetId == asset then Owed(s, id) else 0,
             if s.spays[id].assetId == asset then One(PaidToPayee(s, id) || PaidToPayer(s, id)) else 0, asset)
  }

  /** How often a spay was paid, to either side. */
  function Times(s: State, id: int): int { One(PaidToPayee(s, id)) + |Refunds(s, id)| }

  lemma {:induction false} MovesAllBounds(reg: Registry, ps: seq<string>, k: nat, asset: int)
    requires ValidRegistry(reg) && k < |ps|
    ensures 0 <= Moves(reg, ps[k], asset) <= MovesAll(reg, ps, asset)
    decreases ps
  {
    if k > 0 {
      MovesAllBounds(reg, ps[1..], k - 1, asset);
    } else if |ps| > 1 {
      MovesAllBounds(reg, ps[1..], 0, asset);
    }
    assert Moves(reg, ps[0], asset) >= 0;
  }

  /** A refund in another asset, if it is worth anything, leaves that asset short. */
  lemma StrayWrong(reg: Registry, s: State, id: int, k: nat)
    requires ValidRegistry(reg) && id in s.spays && RowSound(reg, s, id) && RefundsOk(reg, s, id)
    requires k < |Refunds(s, id)| && !AtHome(reg, s.spays[id], Refunds(s, id)[k]) && Value(reg[Refunds(s, id)[k]]) > 0
    ensures !Right(reg, s, id)
  {
    var r, p := s.spays[id], Refunds(s, id)[k];
    assert InvoiceOk(reg, r, p, false);
    var asset := reg[p].assetId;
    MovesAllBounds(reg, Refunds(s, id), k, asset);
    ServInvoiceValue(reg, r);
    assert RowNet(reg, s, id, asset) < 0;
  }

  /** A second payment in the spay's own asset leaves it short. */
  lemma TwiceWrong(reg: Registry, s: State, id: int)
    requires ValidRegistry(reg) && id in s.spays && RowSound(reg, s, id) && RefundsOk(reg, s, id)
    requires s.spays[id].amt > 0 && Times(s, id) > 1
    requires forall k :: 0 <= k < |Refunds(s, id)| ==> AtHome(reg, s.spays[id], Refunds(s, id)[k])
    ensures !Right(reg, s, id)
  {
    var r, ps := s.spays[id], Refunds(s, id);
    var asset := r.assetId;
    ServInvoiceValue(reg, r);
    DueValue(reg, r, r.userInvoice);
    assert InvoiceOk(reg, r, ps[0], false);
    DueValue(reg, r, ps[0]);
    assert MovesAll(reg, ps, asset) == Moves(reg, ps[0], asset) + MovesAll(reg, ps[1..], asset);
    if |ps| > 1 {
      assert ps[1..][0] == ps[1] && InvoiceOk(reg, r, ps[1], false);
      DueValue(reg, r, ps[1]);
      MovesAllBounds(reg, ps[1..], 0, asset);
    }
    assert RowNet(reg, s, id, asset) <= - Scale(asset) * r.amt;
  }

  /** A spay that was paid once at most, at home or with nothing. */
  predicate Regular(reg: Registry, s: State, id: int)
    requires id in s.spays
  {
    && Times(s, id) <= 1
    && (PaidToPayer(s, id) ==>
          Refunds(s, id)[0] in reg
          && (AtHome(reg, s.spays[id], Refunds(s, id)[0]) || Value(reg[Refunds(s, id)[0]]) == 0))
  }

  lemma RegularRight(reg: Registry, s: State, id: int)
    requires ValidRegistry(reg) && id in s.spays && RowSound(reg, s, id) && RefundsOk(reg, s, id)
    requires Regular(reg, s, id)
    ensures forall asset :: RowExcess(reg, s, id, asset) == 0
    ensures Right(reg, s, id)
  {
    forall asset ensures RowExcess(reg, s, id, asset) == 0 {
      if PaidToPayer(s, id) {
        assert InvoiceOk(reg, s.spays[id], Refunds(s, id)[0], false);
        ValueBounds(reg[Refunds(s, id)[0]]);
        assert Refunds(s, id)[1..] == [];
      }
    }
    forall asset
      ensures Covers(RowNet(reg, s, id, asset), if s.spays[id].assetId == asset then Owed(s, id) else 0,
                     if s.spays[id].assetId == asset then One(PaidToPayee(s, id) || PaidToPayer(s, id)) else 0, asset) {
      RowBound(reg, s, id, asset);
    }
  }

  /** What was paid for a spay in millisatoshis of bitcoin. */
  function MsatOut(reg: Registry, s: State, id: int): int
    requires id in s.spays
  {
    (if PaidToPayee(s, id) then Moves(reg, s.spays[id].userInvoice, 0) else 0) + MovesAll(reg, Refunds(s, id), 0)
  }

  predicate HomeOrNothing(reg: Registry, r: Spay, p: string) {
    AtHome(reg, r, p) || (p in reg && Value(reg[p]) == 0)
  }

  /** No refund was worth something in another asset, and the spay was paid once at
      most; for a spay of nothing it is enough that its payments together stay
      below a satoshi. */
  predicate Fair(reg: Registry, s: State, id: int)
    requires id in s.spays
  {
    var r := s.spays[id];
    && (forall k :: 0 <= k < |Refunds(s, id)| ==> HomeOrNothing(reg, r, Refunds(s, id)[k]))
    && (if r.amt > 0 then Times(s, id) <= 1 else r.assetId == 0 ==> MsatOut(reg, s, id) <= 999)
  }

  lemma {:induction false} MovesNothing(reg: Registry, ps: seq<string>, asset: int)
    requires forall k :: 0 <= k < |ps| ==> Moves(reg, ps[k], asset) == 0
    ensures MovesAll(reg, ps, asset) == 0
    decreases ps
  {
    if ps != [] {
      MovesNothing(reg, ps[1..], asset);
    }
  }

  lemma MovesSomething(reg: Registry, ps: seq<string>, asset: int)
    requires ValidRegistry(reg)
    ensures MovesAll(reg, ps, asset) >= 0
  {
    if ps != [] {
      MovesAllBounds(reg, ps, 0, asset);
    }
  }

  /** A spay of nothing that moved less than a satoshi. */
  lemma NothingRight(reg: Registry, s: State, id: int)
    requires ValidRegistry(reg) && id in s.spays && RowSound(reg, s, id) && RefundsOk(reg, s, id)
    requires Fair(reg, s, id) && s.spays[id].amt == 0
    ensures Right(reg, s, id)
  {
    var r := s.spays[id];
    ServInvoiceValue(reg, r);
    DueValue(reg, r, r.userInvoice);
    forall asset
      ensures Covers(RowNet(reg, s, id, asset), if r.assetId == asset then Owed(s, id) else 0,
                     if r.assetId == asset then One(PaidToPayee(s, id) || PaidToPayer(s, id)) else 0, asset) {
      MovesSomething(reg, Refunds(s, id), asset);
      if asset != 0 || r.assetId != 0 {
        NothingMoves(reg, s, id, asset);
      }
    }
  }

  lemma NothingMoves(reg: Registry, s: State, id: int, asset: int)
    requires ValidRegistry(reg) && id in s.spays && RowSound(reg, s, id) && RefundsOk(reg, s, id)
    requires Fair(reg, s, id) && s.spays[id].amt == 0 && (asset != 0 || s.spays[id].assetId != 0)
    ensures MovesAll(reg, Refunds(s, id), asset) == 0
  {
    forall k | 0 <= k < |Refunds(s, id)| ensures Moves(reg, Refunds(s, id)[k], asset) == 0 {
      assert InvoiceOk(reg, s.spays[id], Refunds(s, id)[k], false);
      assert HomeOrNothing(reg, s.spays[id], Refunds(s, id)[k]);
      ValueBounds(reg[Refunds(s, id)[k]]);
    }
    MovesNothing(reg, Refunds(s, id), asset);
  }

  lemma FairRight(reg: Registry, s: State, id: int)
    requires ValidRegistry(reg) && id in s.spays && RowSound(reg, s, id) && RefundsOk(reg, s, id) && Fair(reg, s, id)
    ensures Right(reg, s, id)
  {
    ValueBounds(reg[s.spays[id].userInvoice]);
    if s.spays[id].amt > 0 {
      if PaidToPayer(s, id) {
        assert HomeOrNothing(reg, s.spays[id], Refunds(s, id)[0]);
      }
      RegularRight(reg, s, id);
    } else {
      NothingRight(reg, s, id);
    }
  }

  lemma UnfairWrong(reg: Registry, s: State, id: int)
    requires ValidRegistry(reg) && id in s.spays && RowSound(reg, s, id) && RefundsOk(reg, s, id) && !Fair(reg, s, id)
    ensures !Right(reg, s, id)
  {
    var r := s.spays[id];
    ValueBounds(reg[r.userInvoice]);
    if k: nat :| k < |Refunds(s, id)| && !HomeOrNothing(reg, r, Refunds(s, id)[k]) {
      assert InvoiceOk(reg, r, Refunds(s, id)[k], false);
      ValueBounds(reg[Refunds(s, id)[k]]);
      StrayWrong(reg, s, id, k);
    } else if r.amt > 0 {
      forall k | 0 <= k < |Refunds(s, id)| ensures AtHome(reg, r, Refunds(s, id)[k]) {
        assert InvoiceOk(reg, r, Refunds(s, id)[k], false) && HomeOrNothing(reg, r, Refunds(s, id)[k]);
        ValueBounds(reg[Refunds(s, id)[k]]);
      }
      TwiceWrong(reg, s, id);
    } else {
      ServInvoiceValue(reg, r);
      assert RowNet(reg, s, id, 0) < -999;
    }
  }

  /** Exactly when the money of a spay is right, in every state of every run. */
  lemma RightIff(env: Env, n: nat, t: State, id: int)
    requires ValidRegistry(env.reg) && Reachable(env, n, t) && id in t.spays
    ensures Right(env.reg, t, id) <==> Fair(env.reg, t, id)
  {
    ReachableBooks(env, n, t);
    RowBooks(env, t, id);
    if Fair(env.reg, t, id) {
      FairRight(env.reg, t, id);
    } else {
      UnfairWrong(env.reg, t, id);
    }
  }

  // ------------------------------------------------ under the assumptions

  /** The assumptions under which every covered spay is paid once at most. */
  ghost predicate Timely(env: Env) {
    ValidRegistry(env.reg) && env.serial && env.prompt && env.delay >= 0 && env.kept
  }

  predicate AllCovered(env: Env, s: State) {
    forall id :: id in s.spays ==> Covered(env.reg, s, id, env.delay)
  }

  lemma PaidOnce(env: Env, n: nat, t: State, id: int)
    requires Timely(env) && Reachable(env, n, t) && id in t.spays && Covered(env.reg, t, id, env.delay)
    ensures Times(t, id) <= 1
  {
    NeverBoth(env, n, t, id);
    RefundedOnce(env, n, t, id);
  }

  /** Under them the money of a covered spay is right if and only if it was not
      refunded, or with an invoice in its asset, or one worth nothing. */
  lemma CoveredRightIff(env: Env, n: nat, t: State, id: int)
    requires Timely(env) && Reachable(env, n, t) && id in t.spays && Covered(env.reg, t, id, env.delay)
    ensures Right(env.reg, t, id) <==>
      !PaidToPayer(t, id)
      || AtHome(env.reg, t.spays[id], Refunds(t, id)[0])
      || (Refunds(t, id)[0] in env.reg && Value(env.reg[Refunds(t, id)[0]]) == 0)
  {
    PaidOnce(env, n, t, id);
    ReachableBooks(env, n, t);
    RowBooks(env, t, id);
    if Regular(env.reg, t, id) {
      RegularRight(env.reg, t, id);
    } else {
      UnfairWrong(env.reg, t, id);
    }
  }

  /** Nothing is in excess when every spay is regular, and every spay is when all
      are covered and payers answer in the asset they were asked for. */
  lemma NoExcess(env: Env, n: nat, t: State, asset: int)
    requires ValidRegistry(env.reg) && Reachable(env, n, t)
    requires forall id :: id in t.spays ==> Regular(env.reg, t, id)
    ensures Sum(ExcessOf(env.reg, t, asset)) == 0
  {
    ReachableBooks(env, n, t);
    forall id | id in t.spays ensures ExcessOf(env.reg, t, asset)[id] == 0 {
      RowBooks(env, t, id);
      RegularRight(env.reg, t, id);
    }
    SumNonNegative(ExcessOf(env.reg, t, asset));
  }

  lemma HonestRegular(env: Env, n: nat, t: State)
    requires Timely(env) && env.sameAsset && Reachable(env, n, t) && AllCovered(env, t)
    ensures forall id :: id in t.spays ==> Regular(env.reg, t, id)
  {
    ReachableBooks(env, n, t);
    forall id | id in t.spays ensures Regular(env.reg, t, id) {
      PaidOnce(env, n, t, id);
      assert RowSound(env.reg, t, id);
      if PaidToPayer(t, id) {
        assert InvoiceOk(env.reg, t.spays[id], Refunds(t, id)[0], true);
      }
    }
  }

  /** What is owed can be read off the status of every spay with no payment or
      notification in hand. */
  lemma OwedByStatus(env: Env, n: nat, t: State, id: int)
    requires Timely(env) && Reachable(env, n, t) && id in t.spays && Covered(env.reg, t, id, env.delay)
    ensures t.spays[id].status == PayEnd || t.spays[id].status == Refunded ==> Owed(t, id) == 0
    ensures t.spays[id].status == PayINIT ==> Owed(t, id) == if Arrived(t, t.spays[id]) then t.spays[id].amt else 0
    ensures t.spays[id].status == UserPayed && id !in t.unrecorded && id !in t.refundLost && !InFlight(t, id) ==>
      Owed(t, id) == t.spays[id].amt
    ensures t.spays[id].status != Error
  {
    ReachableApart(env, n, t);
    ReachableOnce(env, n, t, false);
    assert RowOk(env.reg, t, id) && ApartRow(t, id) && OnceRow(t, id, false);
  }
}
