/** Agency payment: the rows of the spay table, and the protocol that moves
    them, as a transition system with a clock.

    A payer settles the server's invoice, the server then owes the payee, and
    pays either the payee's invoice or, after Expire, the invoice the payer has
    handed in.  Three kinds of goroutine pay; none looks at the row's status
    again before writing it. */
module SpayProtocol {
  import opened Wrappers
  import opened Tables
  import opened Invoices

  datatype Status = PayINIT | UserPayed | PayEnd | Error | Refunded

  datatype Spay = Spay(id: int, userId: int, userInvoice: string, servInvoice: string, siPayHash: string,
                       payerAddr: string, expire: int, status: Status, errMsg: string, errTimes: int,
                       payerInvoice: string, assetId: int, amt: int)

  // ---------------------------------------------------------------- the table

  /** The struct handed to gorm's Updates; a zero field is not written. */
  datatype Patch = Patch(status: Status := PayINIT, payerAddr: string := "", expire: int := 0,
                         errMsg: string := "", errTimes: int := 0)

  function Updates(r: Spay, p: Patch): Spay {
    r.(status := if p.status == PayINIT then r.status else p.status,
       payerAddr := if p.payerAddr == "" then r.payerAddr else p.payerAddr,
       expire := if p.expire == 0 then r.expire else p.expire,
       errMsg := if p.errMsg == "" then r.errMsg else p.errMsg,
       errTimes := if p.errTimes == 0 then r.errTimes else p.errTimes)
  }

  /** db.Model(row).Updates(p): the row is addressed by its primary key. */
  function UpdateRow(spays: map<int, Spay>, id: int, p: Patch): map<int, Spay> {
    if id in spays then spays[id := Updates(spays[id], p)] else spays
  }

  function ByHash(spays: map<int, Spay>, rhash: string): Option<int> {
    First(set i | i in spays && spays[i].siPayHash == rhash)
  }

  /** The row CreateSpay saves for a request that carries only a user invoice. */
  function NewSpay(id: int, userId: int, userInvoice: string, u: Decoded,
                   servInvoice: string, rhash: string): Spay {
    Spay(id, userId, userInvoice, servInvoice, rhash, "", 0, PayINIT, "", 0, "", u.assetId, InvoiceAmt(u))
  }

  /** A settled server invoice, as the node reports it. */
  datatype Settlement = Settlement(settleDate: int, expiry: int, payerAddr: string)

  function SettledPatch(inv: Settlement): Patch {
    Patch(status := UserPayed, payerAddr := inv.payerAddr, expire := inv.settleDate + inv.expiry)
  }

  /** The monitor's handling of a settled invoice: First by hash, nothing unless
      the row is at PayINIT, else a partial update. */
  function AfterSettled(spays: map<int, Spay>, rhash: string, inv: Settlement): map<int, Spay> {
    match ByHash(spays, rhash)
    case None => spays
    case Some(id) =>
      if spays[id].status != PayINIT then spays else spays[id := Updates(spays[id], SettledPatch(inv))]
  }

  /** Rows that runUserSpay selects. */
  predicate Payable(r: Spay, userId: int, now: int) {
    r.userId == userId && r.status == UserPayed && r.expire > now
  }

  /** Rows that refund selects; the empty user key selects every payer's. */
  predicate Refundable(r: Spay, userKey: string, now: int) {
    && (userKey != "" ==> r.payerAddr == userKey)
    && r.status == UserPayed && r.expire < now && r.payerInvoice != ""
  }

  /** rows is a result of selecting by sel, in some order. */
  ghost predicate Selected(rows: seq<Spay>, spays: map<int, Spay>, sel: Spay -> bool) {
    && (forall k :: 0 <= k < |rows| ==> rows[k].id in spays && spays[rows[k].id] == rows[k] && sel(rows[k]))
    && (forall i :: i in spays && sel(spays[i]) ==> spays[i] in rows)
    && (forall j, k :: 0 <= j < k < |rows| ==> rows[j].id != rows[k].id)
  }

  /** The row a GETINVOICE_RES message leads to; None when the message is refused. */
  function Answered(reg: Registry, r: Spay, payReq: string): Option<Spay> {
    if payReq !in reg then None
    else if r.amt == 0 && r.userInvoice !in reg then None
    else
      var full := if r.amt == 0 then
                    r.(amt := InvoiceAmt(reg[r.userInvoice]), assetId := reg[r.userInvoice].assetId)
                  else r;
      if InvoiceAmt(reg[payReq]) != full.amt then None else Some(full.(payerInvoice := payReq))
  }

  // ------------------------------------------------------------ the goroutines

  /** Who runs Sendpayment: the goroutine of updateSpayByInvoide, runUserSpay,
      or refund. */
  datatype Kind = Monitor | RunUser | Refund(userKey: string)

  /** Where the payment of the first row in hand stands. */
  datatype Phase = Ready | Sent | Settled | Failed

  /** A goroutine with the rows it still holds in memory. */
  datatype Worker = Worker(kind: Kind, todo: seq<Spay>, phase: Phase)

  /** The request a goroutine pays for a row. */
  function Target(kind: Kind, r: Spay): string {
    if kind.Refund? then r.payerInvoice else r.userInvoice
  }

  /** The status write after a successful payment. */
  function PaidPatch(kind: Kind): Patch {
    Patch(status := if kind.Refund? then Refunded else PayEnd)
  }

  /** The write after a failed payment, none for the monitor's goroutine. */
  function FailedTable(kind: Kind, spays: map<int, Spay>, r: Spay, msg: string): map<int, Spay> {
    if kind == Monitor then spays
    else UpdateRow(spays, r.id, Patch(errMsg := msg, errTimes := r.errTimes + 1))
  }

  // ------------------------------------------------------------------ the state

  /** Besides the table and the goroutines, the state records what happened on
      the network, which the server does not see directly. */
  datatype State = State(
    clock: int,
    spays: map<int, Spay>,
    workers: map<int, Worker>,
    refundMux: Option<int>,           // the worker inside refund
    answers: map<int, Spay>,          // GETINVOICE_RES handlers between their load and their Save
    received: map<string, Settlement>,// settled server invoices, by payment hash
    paid: set<string>,                // requests the server has paid
    payeePaid: map<int, int>,         // when the user invoice was settled on behalf of a spay
    unrecorded: set<int>,             // spays whose payee payment is settled but PayEnd not yet written
    refunds: map<int, seq<string>>,   // payer invoices settled on behalf of a spay
    refundLost: set<int>,             // spays whose Refunded write failed after a settled refund
    launched: map<int, nat>,          // payout goroutines started by the monitor
    cash: map<int, int>)              // received minus paid, per asset

  function Refunds(s: State, id: int): seq<string> {
    if id in s.refunds then s.refunds[id] else []
  }

  function Launches(s: State, id: int): nat {
    if id in s.launched then s.launched[id] else 0
  }

  function Cash(s: State, asset: int): int {
    if asset in s.cash then s.cash[asset] else 0
  }

  function Init(clock: int): State {
    State(clock, map[], map[], None, map[], map[], {}, map[], {}, map[], {}, map[], map[])
  }

  /** Steps of a goroutine, concerning the first row in hand. */
  datatype Action =
    | Skip                    // refund(""): the payer is offline
    | Send                    // Sendpayment is called
    | Settle                  // the network settles the payment
    | Fail                    // the payment fails for good
    | Report(msg: string)     // Sendpayment returned an error
    | Commit                  // Sendpayment returned and the status is written
    | CommitErr               // Sendpayment returned and the write failed
    | Finish                  // no row is left

  datatype Event =
    | Tick(secs: nat)
    | Create(id: int, userId: int, userInvoice: string, servInvoice: string)
    | PayServer(id: int, payerAddr: string)          // the payer settles the server's invoice
    | Deliver(rhash: string, w: int)                 // the monitor handles a settled invoice, maybe again
    | StartRunUser(w: int, userId: int, rows: seq<Spay>)
    | StartRefund(w: int, userKey: string, rows: seq<Spay>)
    | Work(w: int, act: Action)                      // a goroutine takes its next step
    | LoadAnswer(h: int, id: int, payReq: string)    // GETINVOICE_RES, up to the checks
    | SaveAnswer(h: int)                             // GETINVOICE_RES, the whole-row Save

  /** The worker exists and the payment in hand is in the given phase. */
  predicate At(s: State, w: int, phase: Phase) {
    w in s.workers && s.workers[w].phase == phase && s.workers[w].todo != []
  }

  function Head(s: State, w: int): Spay
    requires w in s.workers && s.workers[w].todo != []
  {
    s.workers[w].todo[0]
  }

  function HeadTarget(s: State, w: int): string
    requires w in s.workers && s.workers[w].todo != []
  {
    Target(s.workers[w].kind, Head(s, w))
  }

  /** An invoice is paid at most once, and not after it has run out. */
  predicate CanSettle(reg: Registry, s: State, w: int) {
    At(s, w, Sent) &&
    var p := HeadTarget(s, w); p in reg && p !in s.paid && s.clock <= Deadline(reg[p])
  }

  predicate CanDo(reg: Registry, s: State, w: int, act: Action) {
    match act
    case Skip => At(s, w, Ready) && s.workers[w].kind == Refund("")
    case Send => At(s, w, Ready)
    case Settle => CanSettle(reg, s, w)
    case Fail => At(s, w, Sent)
    case Report(_) => At(s, w, Failed)
    case Commit => At(s, w, Settled)
    case CommitErr => At(s, w, Settled)
    case Finish => w in s.workers && s.workers[w].todo == []
  }

  ghost predicate Enabled(reg: Registry, s: State, e: Event) {
    match e
    case Tick(_) => true
    case Create(id, userId, userInvoice, servInvoice) =>
      && id !in s.spays && userInvoice in reg && servInvoice in reg
      && (var u, v := reg[userInvoice], reg[servInvoice];
          && v == AddInvoice(u.assetId, InvoiceAmt(u), u.expiry, v.paymentHash, s.clock)
          && v.paymentHash !in s.received
          && forall i :: i in s.spays ==> s.spays[i].siPayHash != v.paymentHash)
    case PayServer(id, _) =>
      && id in s.spays && s.spays[id].siPayHash !in s.received
      && (var p := s.spays[id].servInvoice; p in reg && s.clock <= Deadline(reg[p]))
    case Deliver(rhash, w) => rhash in s.received && w !in s.workers
    case StartRunUser(w, userId, rows) =>
      w !in s.workers && Selected(rows, s.spays, r => Payable(r, userId, s.clock))
    case StartRefund(w, userKey, rows) =>
      && w !in s.workers && s.refundMux == None
      && Selected(rows, s.spays, r => Refundable(r, userKey, s.clock))
    case Work(w, act) => CanDo(reg, s, w, act)
    case LoadAnswer(h, id, payReq) =>
      h !in s.answers && id in s.spays && Answered(reg, s.spays[id], payReq).Some?
    case SaveAnswer(h) => h in s.answers
  }

  /** The goroutine goes on to its next row, or returns. */
  function Onward(workers: map<int, Worker>, w: int, goesOn: bool): map<int, Worker>
    requires w in workers && workers[w].todo != []
  {
    if goesOn then workers[w := Worker(workers[w].kind, workers[w].todo[1..], Ready)] else workers - {w}
  }

  /** The goroutine returns; refund releases its mutex. */
  function Return(s: State, w: int): State
    requires w in s.workers
  {
    s.(workers := s.workers - {w},
       refundMux := if s.workers[w].kind.Refund? then None else s.refundMux)
  }

  function SetPhase(s: State, w: int, phase: Phase): State
    requires w in s.workers
  {
    s.(workers := s.workers[w := s.workers[w].(phase := phase)])
  }

  function AddCash(s: State, asset: int, delta: int): map<int, int> {
    s.cash[asset := Cash(s, asset) + delta]
  }

  /** The monitor updates the table and, if the row was at PayINIT, starts one
      goroutine, which holds the updated in-memory row. */
  function DoDeliver(s: State, rhash: string, w: int): State
    requires rhash in s.received
  {
    match ByHash(s.spays, rhash)
    case None => s
    case Some(id) =>
      if s.spays[id].status != PayINIT then s
      else
        var after := AfterSettled(s.spays, rhash, s.received[rhash]);
        s.(spays := after,
           workers := s.workers[w := Worker(Monitor, [after[id]], Ready)],
           launched := s.launched[id := Launches(s, id) + 1])
  }

  function DoSettle(reg: Registry, s: State, w: int): State
    requires CanSettle(reg, s, w)
  {
    var kind, p, id := s.workers[w].kind, HeadTarget(s, w), Head(s, w).id;
    s.(workers := s.workers[w := Worker(kind, s.workers[w].todo, Settled)],
       paid := s.paid + {p},
       cash := AddCash(s, reg[p].assetId, -Value(reg[p])),
       refunds := if kind.Refund? then s.refunds[id := Refunds(s, id) + [p]] else s.refunds,
       payeePaid := if kind.Refund? then s.payeePaid else s.payeePaid[id := s.clock],
       unrecorded := if kind.Refund? then s.unrecorded else s.unrecorded + {id})
  }

  /** After a failed payment runUserSpay goes on and the others return. */
  function DoReport(s: State, w: int, msg: string): State
    requires At(s, w, Failed)
  {
    var kind := s.workers[w].kind;
    s.(spays := FailedTable(kind, s.spays, Head(s, w), msg),
       workers := Onward(s.workers, w, kind == RunUser),
       refundMux := if kind.Refund? then None else s.refundMux)
  }

  /** After a recorded payment the monitor's goroutine returns and the others go on. */
  function DoCommit(s: State, w: int): State
    requires At(s, w, Settled)
  {
    var kind, id := s.workers[w].kind, Head(s, w).id;
    s.(spays := UpdateRow(s.spays, id, PaidPatch(kind)),
       workers := Onward(s.workers, w, kind != Monitor),
       unrecorded := if kind.Refund? then s.unrecorded else s.unrecorded - {id})
  }

  function DoCommitErr(s: State, w: int): State
    requires At(s, w, Settled)
  {
    var kind := s.workers[w].kind;
    s.(workers := s.workers - {w},
       refundMux := if kind.Refund? then None else s.refundMux,
       refundLost := if kind.Refund? then s.refundLost + {Head(s, w).id} else s.refundLost)
  }

  function Do(reg: Registry, s: State, w: int, act: Action): State
    requires CanDo(reg, s, w, act)
  {
    match act
    case Skip => s.(workers := Onward(s.workers, w, true))
    case Send => SetPhase(s, w, if HeadTarget(s, w) in reg then Sent else Failed)
    case Settle => DoSettle(reg, s, w)
    case Fail => SetPhase(s, w, Failed)
    case Report(msg) => DoReport(s, w, msg)
    case Commit => DoCommit(s, w)
    case CommitErr => DoCommitErr(s, w)
    case Finish => Return(s, w)
  }

  ghost function Step(reg: Registry, s: State, e: Event): State
    requires Enabled(reg, s, e)
  {
    match e
    case Tick(secs) => s.(clock := s.clock + secs)
    case Create(id, userId, userInvoice, servInvoice) =>
      s.(spays := s.spays[id := NewSpay(id, userId, userInvoice, reg[userInvoice], servInvoice,
                                        reg[servInvoice].paymentHash)])
    case PayServer(id, payerAddr) =>
      var r := s.spays[id];
      var v := reg[r.servInvoice];
      s.(received := s.received[r.siPayHash := Settlement(s.clock, v.expiry, payerAddr)],
         cash := AddCash(s, v.assetId, Value(v)))
    case Deliver(rhash, w) => DoDeliver(s, rhash, w)
    case StartRunUser(w, userId, rows) => s.(workers := s.workers[w := Worker(RunUser, rows, Ready)])
    case StartRefund(w, userKey, rows) =>
      s.(workers := s.workers[w := Worker(Refund(userKey), rows, Ready)], refundMux := Some(w))
    case Work(w, act) => Do(reg, s, w, act)
    case LoadAnswer(h, id, payReq) =>
      s.(answers := s.answers[h := Answered(reg, s.spays[id], payReq).value])
    case SaveAnswer(h) =>
      s.(spays := s.spays[s.answers[h].id := s.answers[h]], answers := s.answers - {h})
  }

  // ------------------------------------------------- assumptions and runs

  /** The invoices of the world, and which assumptions a run is under. */
  datatype Env = Env(
    reg: Registry,
    delay: int,        // the bound D of `prompt`
    serial: bool,      // no status write falls between the load and the Save of a GETINVOICE_RES
    prompt: bool,      // a settled payee payment is recorded within `delay` seconds
    kept: bool,        // after a lost Refunded write the row's payer invoice is the one already paid
    sameAsset: bool)   // the payer answers GETINVOICE in the asset it was asked for

  predicate Serial(s: State, e: Event) {
    e.SaveAnswer? && e.h in s.answers && s.answers[e.h].id in s.spays ==>
      s.answers[e.h].status == s.spays[s.answers[e.h].id].status
  }

  predicate Prompt(s: State, delay: int) {
    forall id :: id in s.unrecorded && id in s.payeePaid ==> s.clock <= s.payeePaid[id] + delay
  }

  predicate Kept(s: State) {
    forall id :: id in s.refundLost && id in s.spays ==> s.spays[id].payerInvoice in s.paid
  }

  predicate SameAsset(reg: Registry, s: State, e: Event) {
    e.LoadAnswer? && e.id in s.spays && e.payReq in reg && s.spays[e.id].userInvoice in reg ==>
      reg[e.payReq].assetId == reg[s.spays[e.id].userInvoice].assetId
  }

  ghost predicate Next(env: Env, s: State, e: Event, t: State) {
    && Enabled(env.reg, s, e) && t == Step(env.reg, s, e)
    && (env.serial ==> Serial(s, e))
    && (env.prompt ==> Prompt(t, env.delay))
    && (env.kept ==> Kept(t))
    && (env.sameAsset ==> SameAsset(env.reg, s, e))
  }

  /** t is reached from s in n steps. */
  ghost predicate Leads(env: Env, s: State, n: nat, t: State) {
    if n == 0 then s == t
    else exists m, e :: Leads(env, s, n - 1, m) && Next(env, m, e, t)
  }

  /** t occurs in some run. */
  ghost predicate Reachable(env: Env, n: nat, t: State) {
    exists clock: int :: clock > 0 && Leads(env, Init(clock), n, t)
  }

  // ------------------------------------------------------------ vocabulary

  predicate PaidToPayee(s: State, id: int) { id in s.payeePaid }

  predicate PaidToPayer(s: State, id: int) { Refunds(s, id) != [] }

  /** The timing condition on a spay, fixed when its server invoice settles:
      either at least `delay` seconds have passed since the user invoice was
      made, or the user invoice has already run out. */
  predicate SafeGap(u: Decoded, settleDate: int, delay: int) {
    settleDate - u.timestamp >= delay || settleDate > Deadline(u)
  }

  predicate Covered(reg: Registry, s: State, id: int, delay: int) {
    id in s.spays && s.spays[id].userInvoice in reg && s.spays[id].siPayHash in s.received ==>
      SafeGap(reg[s.spays[id].userInvoice], s.received[s.spays[id].siPayHash].settleDate, delay)
  }
}
