/** What every step of the agency-payment protocol keeps, once no status write
    slips between the load and the Save of a GETINVOICE_RES. */
module SpayInvariant {
  import opened Wrappers
  import opened Tables
  import opened Invoices
  import opened SpayProtocol

  /** Two copies of one row agree on everything that is fixed at creation. */
  predicate SameSpay(q: Spay, r: Spay) {
    && q.id == r.id && q.userInvoice == r.userInvoice && q.servInvoice == r.servInvoice
    && q.siPayHash == r.siPayHash && q.assetId == r.assetId && q.amt == r.amt
  }

  predicate FixedOk(reg: Registry, r: Spay) {
    && r.userInvoice in reg && r.servInvoice in reg
    && (var u, v := reg[r.userInvoice], reg[r.servInvoice];
        && r.amt == InvoiceAmt(u) && r.assetId == u.assetId
        && v.paymentHash == r.siPayHash
        && v == AddInvoice(u.assetId, InvoiceAmt(u), u.expiry, v.paymentHash, v.timestamp))
  }

  /** What the row of a spay says about the network. */
  ghost predicate RowOk(reg: Registry, s: State, id: int)
    requires id in s.spays
  {
    var r := s.spays[id];
    && r.id == id && FixedOk(reg, r) && r.status != Error
    && (r.siPayHash in s.received ==>
          s.received[r.siPayHash].expiry == reg[r.userInvoice].expiry
          && 0 < s.received[r.siPayHash].settleDate <= s.clock)
    && (r.status == PayINIT ==> id !in s.payeePaid && Refunds(s, id) == [] && Launches(s, id) == 0)
    && (r.status != PayINIT ==>
          && r.siPayHash in s.received
          && r.expire == s.received[r.siPayHash].settleDate + reg[r.userInvoice].expiry)
    && (id in s.payeePaid ==>
          && r.userInvoice in s.paid
          && s.received[r.siPayHash].settleDate <= s.payeePaid[id] <= Deadline(reg[r.userInvoice])
          && s.payeePaid[id] <= s.clock)
    && Launches(s, id) <= 1
    && (r.status == PayEnd ==> PaidToPayee(s, id))
    && (r.status == Refunded ==> PaidToPayer(s, id))
  }

  /** A row held in memory is current in the fields that matter. */
  predicate HeldOk(s: State, q: Spay) {
    && q.id in s.spays && SameSpay(q, s.spays[q.id])
    && q.status != PayINIT && s.spays[q.id].status != PayINIT && q.expire == s.spays[q.id].expire
  }

  ghost predicate WorkerOk(reg: Registry, s: State, w: int)
    requires w in s.workers
  {
    var wk := s.workers[w];
    && (forall k :: 0 <= k < |wk.todo| ==> HeldOk(s, wk.todo[k]))
    && (wk.phase != Ready ==> wk.todo != [])
    && (wk.phase == Sent ==> HeadTarget(s, w) in reg)
    && (wk.kind.Refund? ==>
          && s.refundMux == Some(w)
          && (forall k :: 0 <= k < |wk.todo| ==> wk.todo[k].expire < s.clock)
          && (forall j, k :: 0 <= j < k < |wk.todo| ==> wk.todo[j].id != wk.todo[k].id))
    && (wk.phase == Settled ==>
          var id := Head(s, w).id;
          if wk.kind.Refund? then PaidToPayer(s, id) else PaidToPayee(s, id))
  }

  /** A GETINVOICE_RES handler holds a copy that is current unless the status has moved. */
  predicate AnswerOk(s: State, a: Spay) {
    && a.id in s.spays && SameSpay(a, s.spays[a.id])
    && (a.status != PayINIT ==> s.spays[a.id].status != PayINIT && a.expire == s.spays[a.id].expire)
  }

  ghost predicate RowsOk(reg: Registry, s: State) {
    forall id :: id in s.spays ==> RowOk(reg, s, id)
  }

  ghost predicate WorkersOk(reg: Registry, s: State) {
    forall w :: w in s.workers ==> WorkerOk(reg, s, w)
  }

  predicate AnswersOk(s: State) {
    forall h :: h in s.answers ==> AnswerOk(s, s.answers[h])
  }

  /** Payment hashes identify rows, and nothing is recorded about absent rows. */
  predicate KeysOk(s: State) {
    && (forall i, j :: i in s.spays && j in s.spays && s.spays[i].siPayHash == s.spays[j].siPayHash ==> i == j)
    && s.payeePaid.Keys <= s.spays.Keys && s.refunds.Keys <= s.spays.Keys
    && s.launched.Keys <= s.spays.Keys && s.unrecorded <= s.payeePaid.Keys
    && (forall h :: h in s.received ==> exists i :: i in s.spays && s.spays[i].siPayHash == h)
    && s.clock > 0
  }

  ghost predicate Inv(reg: Registry, s: State) {
    RowsOk(reg, s) && WorkersOk(reg, s) && AnswersOk(s) && KeysOk(s)
  }

  /** A step that leaves the facts about the network and the fixed and status
      fields of every row alone keeps every row's facts. */
  predicate TableStable(s: State, t: State) {
    && s.spays.Keys == t.spays.Keys
    && (forall id :: id in s.spays ==>
          && SameSpay(s.spays[id], t.spays[id]) && s.spays[id].status == t.spays[id].status
          && (s.spays[id].status != PayINIT ==> s.spays[id].expire == t.spays[id].expire))
  }

  predicate NetworkStable(s: State, t: State) {
    && s.received == t.received && s.payeePaid == t.payeePaid && s.unrecorded == t.unrecorded
    && s.refunds == t.refunds && s.launched == t.launched && s.paid == t.paid && s.clock <= t.clock
  }

  /** Only the history of spay id may have moved. */
  ghost predicate OnlyRow(s: State, t: State, id: int) {
    && id in s.spays && id in t.spays && t.spays == s.spays[id := t.spays[id]]
    && s.received == t.received && s.paid <= t.paid && s.clock <= t.clock
    && s.payeePaid.Keys <= t.payeePaid.Keys <= s.payeePaid.Keys + {id}
    && t.refunds.Keys <= s.refunds.Keys + {id} && t.launched.Keys <= s.launched.Keys + {id}
    && t.unrecorded <= t.payeePaid.Keys
    && (PaidToPayer(s, id) ==> PaidToPayer(t, id))
    && forall i :: i != id ==>
         && (i in s.payeePaid ==> s.payeePaid[i] == t.payeePaid[i])
         && Refunds(s, i) == Refunds(t, i) && Launches(s, i) == Launches(t, i)
  }

  lemma StableRows(reg: Registry, s: State, t: State)
    requires RowsOk(reg, s) && KeysOk(s) && TableStable(s, t) && NetworkStable(s, t)
    ensures RowsOk(reg, t) && KeysOk(t)
  {
    forall id | id in t.spays ensures RowOk(reg, t, id) {
      StableRow(reg, s, t, id);
    }
    HashesOk(s, t);
  }

  lemma StableRow(reg: Registry, s: State, t: State, id: int)
    requires id in s.spays && id in t.spays && RowOk(reg, s, id) && NetworkStable(s, t)
    requires SameSpay(s.spays[id], t.spays[id]) && s.spays[id].status == t.spays[id].status
    requires s.spays[id].status != PayINIT ==> s.spays[id].expire == t.spays[id].expire
    ensures RowOk(reg, t, id)
  {
  }

  /** Payments only accumulate, and rows only move away from PayINIT. */
  ghost predicate Grows(s: State, t: State) {
    && s.clock <= t.clock && s.payeePaid.Keys <= t.payeePaid.Keys
    && (forall id :: PaidToPayer(s, id) ==> PaidToPayer(t, id))
    && (forall h :: h in s.received ==> h in t.received && t.received[h] == s.received[h])
    && s.spays.Keys <= t.spays.Keys
    && (forall id :: id in s.spays ==>
          && SameSpay(s.spays[id], t.spays[id])
          && (s.spays[id].status != PayINIT ==>
                t.spays[id].status != PayINIT && s.spays[id].expire == t.spays[id].expire))
  }

  /** Every goroutine but w is as before. */
  ghost predicate OthersSame(s: State, t: State, w: int) {
    forall v :: v != w ==> (v in s.workers <==> v in t.workers) && (v in s.workers ==> s.workers[v] == t.workers[v])
  }

  predicate MuxOk(s: State, t: State, w: int) {
    t.refundMux == s.refundMux || s.refundMux == None || s.refundMux == Some(w)
  }

  lemma OthersOk(reg: Registry, s: State, t: State, w: int)
    requires WorkersOk(reg, s) && Grows(s, t) && OthersSame(s, t, w) && MuxOk(s, t, w)
    requires w in t.workers ==> WorkerOk(reg, t, w)
    ensures WorkersOk(reg, t)
  {
    forall v | v in t.workers ensures WorkerOk(reg, t, v) {
      if v != w {
        assert WorkerOk(reg, s, v);
        IdleWorker(reg, s, t, v);
      }
    }
  }

  /** A goroutine that did not move is still fine. */
  lemma IdleWorker(reg: Registry, s: State, t: State, w: int)
    requires Grows(s, t) && w in s.workers && w in t.workers && s.workers[w] == t.workers[w]
    requires WorkerOk(reg, s, w) && (s.workers[w].kind.Refund? ==> t.refundMux == s.refundMux)
    ensures WorkerOk(reg, t, w)
  {
    forall k | 0 <= k < |s.workers[w].todo| ensures HeldOk(t, t.workers[w].todo[k]) {
      assert HeldOk(s, s.workers[w].todo[k]);
    }
  }

  lemma NobodyMoves(reg: Registry, s: State, t: State)
    requires WorkersOk(reg, s) && Grows(s, t) && t.workers == s.workers && t.refundMux == s.refundMux
    ensures WorkersOk(reg, t)
  {
  }

  lemma StableGrows(s: State, t: State)
    requires TableStable(s, t) && NetworkStable(s, t)
    ensures Grows(s, t)
  {
  }

  /** A step of goroutine w that settles nothing and writes no status keeps the
      invariant if w itself is left fine. */
  lemma WorkerMoves(reg: Registry, s: State, t: State, w: int)
    requires Inv(reg, s) && TableStable(s, t) && NetworkStable(s, t) && t.answers == s.answers
    requires OthersSame(s, t, w) && MuxOk(s, t, w)
    requires w in t.workers ==> WorkerOk(reg, t, w)
    ensures Inv(reg, t) && Grows(s, t)
  {
    StableGrows(s, t);
    StableRows(reg, s, t);
    AnswersKept(s, t);
    OthersOk(reg, s, t, w);
  }

  lemma StartOk(reg: Registry, s: State, t: State, w: int, kind: Kind, rows: seq<Spay>)
    requires Inv(reg, s) && w !in s.workers && kind != Monitor
    requires forall k :: 0 <= k < |rows| ==>
               rows[k].id in s.spays && s.spays[rows[k].id] == rows[k] && rows[k].status == UserPayed
    requires kind.Refund? ==>
               && s.refundMux == None
               && (forall k :: 0 <= k < |rows| ==> rows[k].expire < s.clock)
               && (forall j, k :: 0 <= j < k < |rows| ==> rows[j].id != rows[k].id)
    requires t == s.(workers := s.workers[w := Worker(kind, rows, Ready)],
                     refundMux := if kind.Refund? then Some(w) else s.refundMux)
    ensures Inv(reg, t) && Grows(s, t)
  {
    forall k | 0 <= k < |rows| ensures HeldOk(t, rows[k]) {
      assert RowOk(reg, s, rows[k].id);
    }
    WorkerMoves(reg, s, t, w);
  }

  lemma StartRunUserOk(reg: Registry, s: State, t: State, w: int, userId: int, rows: seq<Spay>)
    requires Inv(reg, s) && w !in s.workers && Selected(rows, s.spays, r => Payable(r, userId, s.clock))
    requires t == s.(workers := s.workers[w := Worker(RunUser, rows, Ready)])
    ensures Inv(reg, t) && Grows(s, t)
  {
    StartOk(reg, s, t, w, RunUser, rows);
  }

  lemma StartRefundOk(reg: Registry, s: State, t: State, w: int, userKey: string, rows: seq<Spay>)
    requires Inv(reg, s) && w !in s.workers && s.refundMux == None
    requires Selected(rows, s.spays, r => Refundable(r, userKey, s.clock))
    requires t == s.(workers := s.workers[w := Worker(Refund(userKey), rows, Ready)], refundMux := Some(w))
    ensures Inv(reg, t) && Grows(s, t)
  {
    StartOk(reg, s, t, w, Refund(userKey), rows);
  }

  /** The rows a goroutine keeps after a step are among those it held. */
  predicate TodoShrinks(s: State, t: State, w: int) {
    && w in s.workers && w in t.workers && t.workers[w].kind == s.workers[w].kind
    && var old_, todo := s.workers[w].todo, t.workers[w].todo;
       todo == old_ || (old_ != [] && todo == old_[1..])
  }

  /** A goroutine that has moved is fine if its phase is justified. */
  lemma MovedOk(reg: Registry, s: State, t: State, w: int)
    requires TodoShrinks(s, t, w) && WorkerOk(reg, s, w) && Grows(s, t) && t.refundMux == s.refundMux
    requires var wk := t.workers[w];
      && (wk.phase != Ready ==> wk.todo != [])
      && (wk.phase == Sent ==> HeadTarget(t, w) in reg)
      && (wk.phase == Settled ==>
            if wk.kind.Refund? then PaidToPayer(t, Head(t, w).id) else PaidToPayee(t, Head(t, w).id))
    ensures WorkerOk(reg, t, w)
  {
  }

  /** Going on to the next row or returning, after writes that changed no status. */
  lemma OnwardOk(reg: Registry, s: State, t: State, w: int, goesOn: bool)
    requires Inv(reg, s) && w in s.workers && (s.workers[w].todo != [] || !goesOn)
    requires TableStable(s, t) && NetworkStable(s, t) && t.answers == s.answers
    requires t.workers == if goesOn then Onward(s.workers, w, true) else s.workers - {w}
    requires t.refundMux == if goesOn || !s.workers[w].kind.Refund? then s.refundMux else None
    ensures Inv(reg, t) && Grows(s, t)
  {
    assert WorkerOk(reg, s, w);
    StableGrows(s, t);
    if goesOn {
      MovedOk(reg, s, t, w);
    }
    WorkerMoves(reg, s, t, w);
  }

  lemma PhaseOk(reg: Registry, s: State, w: int, phase: Phase)
    requires Inv(reg, s) && w in s.workers && s.workers[w].todo != [] && phase != Settled
    requires phase == Sent ==> HeadTarget(s, w) in reg
    ensures Inv(reg, SetPhase(s, w, phase)) && Grows(s, SetPhase(s, w, phase))
  {
    var t := SetPhase(s, w, phase);
    StableGrows(s, t);
    assert WorkerOk(reg, s, w);
    MovedOk(reg, s, t, w);
    WorkerMoves(reg, s, t, w);
  }

  lemma ReportTable(s: State, kind: Kind, q: Spay, msg: string)
    requires HeldOk(s, q)
    ensures TableStable(s, s.(spays := FailedTable(kind, s.spays, q, msg)))
  {
  }

  lemma StepReport(reg: Registry, s: State, t: State, w: int, msg: string)
    requires Inv(reg, s) && At(s, w, Failed) && t == DoReport(s, w, msg)
    ensures Inv(reg, t) && Grows(s, t)
  {
    var q, kind := Head(s, w), s.workers[w].kind;
    assert WorkerOk(reg, s, w) && HeldOk(s, q);
    ReportTable(s, kind, q, msg);
    OnwardOk(reg, s, t, w, kind == RunUser);
  }

  lemma StepTick(reg: Registry, s: State, t: State, secs: nat)
    requires Inv(reg, s) && t == s.(clock := s.clock + secs)
    ensures Inv(reg, t) && Grows(s, t)
  {
    StableGrows(s, t);
    StableRows(reg, s, t);
    AnswersKept(s, t);
    NobodyMoves(reg, s, t);
  }

  /** Hashes stay resolvable while rows keep theirs. */
  lemma HashesOk(s: State, t: State)
    requires KeysOk(s) && s.spays.Keys <= t.spays.Keys
    requires forall id :: id in s.spays ==> s.spays[id].siPayHash == t.spays[id].siPayHash
    ensures forall h :: h in s.received ==> exists i :: i in t.spays && t.spays[i].siPayHash == h
  {
  }

  lemma OneRowRows(reg: Registry, s: State, t: State, id: int)
    requires RowsOk(reg, s) && OnlyRow(s, t, id) && RowOk(reg, t, id)
    ensures RowsOk(reg, t)
  {
  }

  lemma OneRowKeys(s: State, t: State, id: int)
    requires KeysOk(s) && OnlyRow(s, t, id) && SameSpay(s.spays[id], t.spays[id])
    requires id in s.payeePaid || t.payeePaid.Keys <= s.spays.Keys
    ensures KeysOk(t)
  {
    HashesOk(s, t);
    assert t.spays.Keys == s.spays.Keys;
    assert forall i :: i in s.spays ==> s.spays[i].siPayHash == t.spays[i].siPayHash;
  }

  lemma OneRowGrows(s: State, t: State, id: int)
    requires OnlyRow(s, t, id) && SameSpay(s.spays[id], t.spays[id])
    requires s.spays[id].status != PayINIT ==>
               t.spays[id].status != PayINIT && s.spays[id].expire == t.spays[id].expire
    ensures Grows(s, t)
  {
  }

  lemma OneRow(reg: Registry, s: State, t: State, id: int)
    requires RowsOk(reg, s) && KeysOk(s) && OnlyRow(s, t, id) && RowOk(reg, t, id)
    requires SameSpay(s.spays[id], t.spays[id]) && t.spays[id].status != PayINIT
    requires s.spays[id].status != PayINIT ==> s.spays[id].expire == t.spays[id].expire
    ensures RowsOk(reg, t) && KeysOk(t) && Grows(s, t)
  {
    OneRowRows(reg, s, t, id);
    OneRowKeys(s, t, id);
    OneRowGrows(s, t, id);
  }

  /** The copies held by handlers survive any step of another kind. */
  lemma AnswersKept(s: State, t: State)
    requires AnswersOk(s) && Grows(s, t) && t.answers == s.answers
    ensures AnswersOk(t)
  {
  }

  lemma CreateRows(reg: Registry, s: State, t: State, id: int, r: Spay)
    requires RowsOk(reg, s) && KeysOk(s) && id !in s.spays && t == s.(spays := s.spays[id := r])
    requires r.id == id && r.status == PayINIT && FixedOk(reg, r) && r.siPayHash !in s.received
    requires forall i :: i in s.spays ==> s.spays[i].siPayHash != r.siPayHash
    ensures RowsOk(reg, t)
  {
    forall i | i in t.spays ensures RowOk(reg, t, i) {
      if i != id {
        RowElsewhere(reg, s, t, i);
      } else {
        assert id !in t.payeePaid && Refunds(t, id) == [] && Launches(t, id) == 0;
      }
    }
  }

  lemma RowElsewhere(reg: Registry, s: State, t: State, i: int)
    requires i in s.spays && i in t.spays && t.spays[i] == s.spays[i] && RowOk(reg, s, i) && NetworkStable(s, t)
    ensures RowOk(reg, t, i)
  {
  }

  lemma StepCreate(reg: Registry, s: State, e: Event, t: State)
    requires Inv(reg, s) && Enabled(reg, s, e) && e.Create? && t == Step(reg, s, e)
    ensures Inv(reg, t) && Grows(s, t)
  {
    var r := NewSpay(e.id, e.userId, e.userInvoice, reg[e.userInvoice], e.servInvoice,
                     reg[e.servInvoice].paymentHash);
    assert FixedOk(reg, r);
    CreateOk(reg, s, t, e.id, r);
  }

  lemma CreateOk(reg: Registry, s: State, t: State, id: int, r: Spay)
    requires Inv(reg, s) && id !in s.spays && t == s.(spays := s.spays[id := r])
    requires r.id == id && r.status == PayINIT && FixedOk(reg, r) && r.siPayHash !in s.received
    requires forall i :: i in s.spays ==> s.spays[i].siPayHash != r.siPayHash
    ensures Inv(reg, t) && Grows(s, t)
  {
    CreateRows(reg, s, t, id, r);
    CreateKeys(s, t, id, r);
    NobodyMoves(reg, s, t);
    AnswersKept(s, t);
  }

  lemma CreateKeys(s: State, t: State, id: int, r: Spay)
    requires KeysOk(s) && id !in s.spays && t == s.(spays := s.spays[id := r])
    requires forall i :: i in s.spays ==> s.spays[i].siPayHash != r.siPayHash
    ensures KeysOk(t)
  {
    HashesOk(s, t);
  }

  lemma StepPayServer(reg: Registry, s: State, e: Event, t: State)
    requires Inv(reg, s) && Enabled(reg, s, e) && e.PayServer? && t == Step(reg, s, e)
    ensures Inv(reg, t) && Grows(s, t)
  {
    PaidServer(reg, s, e, t);
    ReceivedRows(reg, s, t, e.id);
    ReceivedKeys(s, t, e.id);
    NobodyMoves(reg, s, t);
    AnswersKept(s, t);
  }

  lemma PaidServer(reg: Registry, s: State, e: Event, t: State)
    requires Enabled(reg, s, e) && e.PayServer? && t == Step(reg, s, e)
    ensures Received(reg, s, t, e.id) && Grows(s, t)
    ensures t.workers == s.workers && t.refundMux == s.refundMux && t.answers == s.answers
  {
  }

  /** One server invoice was paid, now. */
  predicate Received(reg: Registry, s: State, t: State, id: int) {
    && id in s.spays && s.spays[id].siPayHash !in s.received && t.spays == s.spays
    && t.received.Keys == s.received.Keys + {s.spays[id].siPayHash}
    && (forall h :: h in s.received ==> t.received[h] == s.received[h])
    && (var inv := t.received[s.spays[id].siPayHash];
        inv.settleDate == t.clock && s.spays[id].servInvoice in reg && inv.expiry == reg[s.spays[id].servInvoice].expiry)
    && t.clock == s.clock && t.payeePaid == s.payeePaid && t.unrecorded == s.unrecorded && t.refunds == s.refunds
    && t.launched == s.launched && t.paid == s.paid
  }

  lemma ReceivedRows(reg: Registry, s: State, t: State, id: int)
    requires RowsOk(reg, s) && KeysOk(s) && Received(reg, s, t, id)
    ensures RowsOk(reg, t)
  {
    assert RowOk(reg, s, id);
    forall i | i in t.spays ensures RowOk(reg, t, i) {
      assert RowOk(reg, s, i);
    }
  }

  lemma ReceivedKeys(s: State, t: State, id: int)
    requires KeysOk(s) && id in s.spays && t.spays == s.spays && t.clock == s.clock
    requires t.received.Keys == s.received.Keys + {s.spays[id].siPayHash}
    requires t.payeePaid == s.payeePaid && t.unrecorded == s.unrecorded && t.refunds == s.refunds && t.launched == s.launched
    ensures KeysOk(t)
  {
    HashesOk(s, t);
  }

  /** The monitor's First finds the one row with that payment hash. */
  lemma DeliverFinds(s: State, rhash: string)
    requires KeysOk(s) && rhash in s.received
    ensures ByHash(s.spays, rhash).Some?
    ensures var id := ByHash(s.spays, rhash).value; id in s.spays && s.spays[id].siPayHash == rhash
  {
    var i :| i in s.spays && s.spays[i].siPayHash == rhash;
    var ids := set j | j in s.spays && s.spays[j].siPayHash == rhash;
    assert i in ids;
  }

  lemma DeliveredRow(reg: Registry, s: State, t: State, id: int, w: int, sp: Spay)
    requires ValidRegistry(reg) && id in s.spays && RowOk(reg, s, id) && KeysOk(s)
    requires s.spays[id].siPayHash in s.received && s.spays[id].status == PayINIT
    requires sp == Updates(s.spays[id], SettledPatch(s.received[s.spays[id].siPayHash]))
    requires t == s.(spays := s.spays[id := sp], workers := s.workers[w := Worker(Monitor, [sp], Ready)],
                     launched := s.launched[id := Launches(s, id) + 1])
    ensures RowOk(reg, t, id) && OnlyRow(s, t, id) && SameSpay(sp, s.spays[id]) && sp.status == UserPayed
  {
  }

  lemma LaunchedWorkers(reg: Registry, s: State, t: State, w: int, sp: Spay)
    requires WorkersOk(reg, s) && Grows(s, t) && w !in s.workers && t.refundMux == s.refundMux
    requires sp.id in t.spays && t.spays[sp.id] == sp && sp.status == UserPayed
    requires t.workers == s.workers[w := Worker(Monitor, [sp], Ready)]
    ensures WorkersOk(reg, t)
  {
    LaunchedWorker(reg, t, w, sp);
    OthersOk(reg, s, t, w);
  }

  lemma LaunchedWorker(reg: Registry, t: State, w: int, sp: Spay)
    requires sp.id in t.spays && t.spays[sp.id] == sp && sp.status == UserPayed
    requires w in t.workers && t.workers[w] == Worker(Monitor, [sp], Ready)
    ensures WorkerOk(reg, t, w)
  {
  }

  lemma DeliverRow(reg: Registry, s: State, t: State, id: int, w: int, sp: Spay)
    requires ValidRegistry(reg) && Inv(reg, s) && id in s.spays && s.spays[id].siPayHash in s.received
    requires s.spays[id].status == PayINIT && w !in s.workers
    requires sp == Updates(s.spays[id], SettledPatch(s.received[s.spays[id].siPayHash]))
    requires t == s.(spays := s.spays[id := sp], workers := s.workers[w := Worker(Monitor, [sp], Ready)],
                     launched := s.launched[id := Launches(s, id) + 1])
    ensures Inv(reg, t) && Grows(s, t)
  {
    assert RowOk(reg, s, id);
    DeliveredRow(reg, s, t, id, w, sp);
    OneRow(reg, s, t, id);
    LaunchedWorkers(reg, s, t, w, sp);
    AnswersKept(s, t);
  }

  lemma StepDeliver(reg: Registry, s: State, t: State, rhash: string, w: int)
    requires ValidRegistry(reg) && Inv(reg, s) && rhash in s.received && w !in s.workers
    requires t == DoDeliver(s, rhash, w)
    ensures Inv(reg, t) && Grows(s, t)
  {
    DeliverFinds(s, rhash);
    var id := ByHash(s.spays, rhash).value;
    if s.spays[id].status == PayINIT {
      DeliverRow(reg, s, t, id, w, Updates(s.spays[id], SettledPatch(s.received[rhash])));
    }
  }

  /** The row whose payment settles. */
  lemma SettledRow(reg: Registry, s: State, t: State, w: int, id: int)
    requires CanSettle(reg, s, w) && id == Head(s, w).id && HeldOk(s, Head(s, w)) && RowOk(reg, s, id)
    requires t == DoSettle(reg, s, w)
    ensures RowOk(reg, t, id)
  {
  }

  lemma SettledElsewhere(reg: Registry, s: State, t: State, w: int, id: int)
    requires CanSettle(reg, s, w) && id == Head(s, w).id && id in s.spays
    requires KeysOk(s) && t == DoSettle(reg, s, w)
    ensures OnlyRow(s, t, id)
  {
  }

  lemma StepSettle(reg: Registry, s: State, t: State, w: int)
    requires Inv(reg, s) && CanSettle(reg, s, w) && t == DoSettle(reg, s, w)
    ensures Inv(reg, t) && Grows(s, t)
  {
    assert WorkerOk(reg, s, w);
    var id := Head(s, w).id;
    assert HeldOk(s, Head(s, w));
    SettledRow(reg, s, t, w, id);
    SettledElsewhere(reg, s, t, w, id);
    OneRow(reg, s, t, id);
    SettledWorkers(reg, s, t, w);
    AnswersKept(s, t);
  }

  lemma SettledWorkers(reg: Registry, s: State, t: State, w: int)
    requires WorkersOk(reg, s) && Grows(s, t) && CanSettle(reg, s, w) && t == DoSettle(reg, s, w)
    ensures WorkersOk(reg, t)
  {
    assert WorkerOk(reg, s, w);
    MovedOk(reg, s, t, w);
    OthersOk(reg, s, t, w);
  }

  /** The row whose status is written. */
  lemma CommittedRow(reg: Registry, s: State, t: State, w: int, id: int)
    requires At(s, w, Settled) && WorkerOk(reg, s, w) && id == Head(s, w).id && HeldOk(s, Head(s, w))
    requires RowOk(reg, s, id) && KeysOk(s) && t == DoCommit(s, w)
    ensures t.spays == s.spays[id := s.spays[id].(status := PaidPatch(s.workers[w].kind).status)]
    ensures RowOk(reg, t, id) && OnlyRow(s, t, id)
  {
  }

  lemma StepCommit(reg: Registry, s: State, t: State, w: int)
    requires Inv(reg, s) && At(s, w, Settled) && t == DoCommit(s, w)
    ensures Inv(reg, t) && Grows(s, t)
  {
    assert WorkerOk(reg, s, w);
    var id := Head(s, w).id;
    assert HeldOk(s, Head(s, w));
    CommittedRow(reg, s, t, w, id);
    OneRow(reg, s, t, id);
    CommittedWorkers(reg, s, t, w);
    AnswersKept(s, t);
  }

  lemma CommittedWorkers(reg: Registry, s: State, t: State, w: int)
    requires WorkersOk(reg, s) && Grows(s, t) && At(s, w, Settled) && t == DoCommit(s, w)
    ensures WorkersOk(reg, t)
  {
    assert WorkerOk(reg, s, w);
    if w in t.workers {
      MovedOk(reg, s, t, w);
    }
    OthersOk(reg, s, t, w);
  }

  lemma StepLoadAnswer(reg: Registry, s: State, t: State, h: int, id: int, payReq: string)
    requires Inv(reg, s) && h !in s.answers && id in s.spays && Answered(reg, s.spays[id], payReq).Some?
    requires t == s.(answers := s.answers[h := Answered(reg, s.spays[id], payReq).value])
    ensures Inv(reg, t) && Grows(s, t)
  {
    StableGrows(s, t);
    StableRows(reg, s, t);
    assert RowOk(reg, s, id);
    forall g | g in t.answers ensures AnswerOk(t, t.answers[g]) {
      if g != h { assert AnswerOk(s, s.answers[g]); }
    }
    NobodyMoves(reg, s, t);
  }

  lemma StepSaveAnswer(reg: Registry, s: State, t: State, h: int)
    requires Inv(reg, s) && h in s.answers && Serial(s, SaveAnswer(h))
    requires t == s.(spays := s.spays[s.answers[h].id := s.answers[h]], answers := s.answers - {h})
    ensures Inv(reg, t) && Grows(s, t)
  {
    assert AnswerOk(s, s.answers[h]);
    StableGrows(s, t);
    StableRows(reg, s, t);
    forall g | g in t.answers ensures AnswerOk(t, t.answers[g]) {
      assert AnswerOk(s, s.answers[g]);
    }
    NobodyMoves(reg, s, t);
  }

  lemma StepWork(reg: Registry, s: State, t: State, w: int, act: Action)
    requires Inv(reg, s) && CanDo(reg, s, w, act) && t == Do(reg, s, w, act)
    ensures Inv(reg, t) && Grows(s, t)
  {
    match act {
      case Skip => OnwardOk(reg, s, t, w, true);
      case Send => PhaseOk(reg, s, w, if HeadTarget(s, w) in reg then Sent else Failed);
      case Settle => StepSettle(reg, s, t, w);
      case Fail => PhaseOk(reg, s, w, Failed);
      case Report(msg) => StepReport(reg, s, t, w, msg);
      case Commit => StepCommit(reg, s, t, w);
      case CommitErr => OnwardOk(reg, s, t, w, false);
      case Finish => OnwardOk(reg, s, t, w, false);
    }
  }

  /** The invariant is kept by every step of a run in which no status write
      falls between the load and the Save of a GETINVOICE_RES. */
  lemma StepInv(reg: Registry, s: State, e: Event, t: State)
    requires ValidRegistry(reg) && Inv(reg, s) && Enabled(reg, s, e) && t == Step(reg, s, e) && Serial(s, e)
    ensures Inv(reg, t) && Grows(s, t)
  {
    match e {
      case Tick(secs) => StepTick(reg, s, t, secs);
      case Create(_, _, _, _) => StepCreate(reg, s, e, t);
      case PayServer(_, _) => StepPayServer(reg, s, e, t);
      case Deliver(rhash, w) => StepDeliver(reg, s, t, rhash, w);
      case StartRunUser(w, userId, rows) => StartRunUserOk(reg, s, t, w, userId, rows);
      case StartRefund(w, userKey, rows) => StartRefundOk(reg, s, t, w, userKey, rows);
      case Work(w, act) => StepWork(reg, s, t, w, act);
      case LoadAnswer(h, id, payReq) => StepLoadAnswer(reg, s, t, h, id, payReq);
      case SaveAnswer(h) => StepSaveAnswer(reg, s, t, h);
    }
  }

  lemma GrowsTrans(s: State, m: State, t: State)
    requires Grows(s, m) && Grows(m, t)
    ensures Grows(s, t)
  {
  }

  lemma NextInv(env: Env, s: State, e: Event, t: State)
    requires ValidRegistry(env.reg) && env.serial && Inv(env.reg, s) && Next(env, s, e, t)
    ensures Inv(env.reg, t) && Grows(s, t)
  {
    StepInv(env.reg, s, e, t);
  }

  lemma {:induction false} LeadsInv(env: Env, s: State, n: nat, t: State)
    requires ValidRegistry(env.reg) && env.serial && Inv(env.reg, s) && Leads(env, s, n, t)
    ensures Inv(env.reg, t) && Grows(s, t)
  {
    if n > 0 {
      var m, e :| Leads(env, s, n - 1, m) && Next(env, m, e, t);
      LeadsInv(env, s, n - 1, m);
      NextInv(env, m, e, t);
      GrowsTrans(s, m, t);
    }
  }

  /** In every state of every such run the invariant holds. */
  lemma ReachableInv(env: Env, n: nat, t: State)
    requires ValidRegistry(env.reg) && env.serial && Reachable(env, n, t)
    ensures Inv(env.reg, t)
  {
    var clock :| clock > 0 && Leads(env, Init(clock), n, t);
    LeadsInv(env, Init(clock), n, t);
  }
}
