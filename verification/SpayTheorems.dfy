/** Safety of the agency payment over whole runs. */
module SpayTheorems {
  import opened Wrappers
  import opened Tables
  import opened Invoices
  import opened SpayProtocol
  import opened SpayInvariant

  // ------------------------------------------------ never pay both sides

  /** Once the payer has been paid back, the refund window is open and the payee
      has not been paid; once a payee payment is recorded, the status says so. */
  predicate ApartRow(s: State, id: int)
    requires id in s.spays
  {
    && (PaidToPayee(s, id) && id !in s.unrecorded ==> s.spays[id].status == PayEnd)
    && (PaidToPayer(s, id) ==> !PaidToPayee(s, id) && s.spays[id].expire < s.clock)
  }

  /** The rows refund holds are not paid to the payee. */
  predicate ApartWorker(reg: Registry, s: State, w: int, delay: int)
    requires w in s.workers
  {
    s.workers[w].kind.Refund? ==>
      forall k :: 0 <= k < |s.workers[w].todo| ==>
        Covered(reg, s, s.workers[w].todo[k].id, delay) ==> !PaidToPayee(s, s.workers[w].todo[k].id)
  }

  predicate Apart(reg: Registry, s: State, delay: int) {
    && (forall id :: id in s.spays && Covered(reg, s, id, delay) ==> ApartRow(s, id))
    && (forall w :: w in s.workers ==> ApartWorker(reg, s, w, delay))
  }

  /** Where the timing comes in: when the refund window of a covered spay is
      open, the payee cannot be paid any more, and no earlier payment to the
      payee is still unrecorded. */
  lemma WindowsDisjoint(reg: Registry, s: State, id: int, delay: int)
    requires delay >= 0 && id in s.spays && RowOk(reg, s, id) && Covered(reg, s, id, delay)
    requires s.spays[id].status != PayINIT && s.spays[id].expire < s.clock
    ensures Deadline(reg[s.spays[id].userInvoice]) < s.clock
    ensures PaidToPayee(s, id) && Prompt(s, delay) ==> id !in s.unrecorded
  {
  }

  /** A covered spay stays covered: the settle date never changes. */
  lemma CoveredBefore(reg: Registry, s: State, t: State, id: int, delay: int)
    requires id in s.spays && id in t.spays && SameSpay(s.spays[id], t.spays[id])
    requires forall h :: h in s.received ==> h in t.received && t.received[h] == s.received[h]
    requires Covered(reg, t, id, delay)
    ensures Covered(reg, s, id, delay)
  {
  }

  /** Steps that settle nothing, write no status and select no row for refund. */
  predicate Quiet(s: State, t: State) {
    && s.payeePaid == t.payeePaid && s.refunds == t.refunds && s.unrecorded == t.unrecorded
    && s.clock <= t.clock && s.spays.Keys <= t.spays.Keys
    && (forall id :: id in s.spays ==>
          && SameSpay(s.spays[id], t.spays[id])
          && (s.spays[id].status != PayINIT ==>
                s.spays[id].status == t.spays[id].status && s.spays[id].expire == t.spays[id].expire)
          && (s.spays[id].status == PayINIT ==> t.spays[id].status == PayINIT || t.spays[id].status == UserPayed))
    && (forall w :: w in t.workers && t.workers[w].kind.Refund? ==>
          w in s.workers && s.workers[w].kind.Refund? && forall q :: q in t.workers[w].todo ==> q in s.workers[w].todo)
  }

  lemma QuietApart(reg: Registry, s: State, t: State, delay: int)
    requires RowsOk(reg, s) && WorkersOk(reg, s) && KeysOk(s) && Apart(reg, s, delay) && Quiet(s, t)
    requires forall h :: h in s.received ==> h in t.received && t.received[h] == s.received[h]
    ensures Apart(reg, t, delay)
  {
    forall id | id in t.spays && Covered(reg, t, id, delay) ensures ApartRow(t, id) {
      if id in s.spays {
        CoveredBefore(reg, s, t, id, delay);
        assert ApartRow(s, id) && RowOk(reg, s, id);
      } else {
        assert id !in s.payeePaid && id !in s.refunds;
      }
    }
    forall w | w in t.workers ensures ApartWorker(reg, t, w, delay) {
      if t.workers[w].kind.Refund? {
        assert ApartWorker(reg, s, w, delay) && WorkerOk(reg, s, w);
        var todo := t.workers[w].todo;
        forall k | 0 <= k < |todo| && Covered(reg, t, todo[k].id, delay) ensures !PaidToPayee(t, todo[k].id) {
          assert todo[k] in s.workers[w].todo;
          var j :| 0 <= j < |s.workers[w].todo| && s.workers[w].todo[j] == todo[k];
          assert HeldOk(s, s.workers[w].todo[j]);
          CoveredBefore(reg, s, t, todo[k].id, delay);
        }
      }
    }
  }

  lemma StartRefundApart(reg: Registry, s: State, t: State, w: int, rows: seq<Spay>, userKey: string, delay: int)
    requires delay >= 0 && RowsOk(reg, s) && Apart(reg, s, delay) && Prompt(s, delay) && w !in s.workers
    requires Selected(rows, s.spays, r => Refundable(r, userKey, s.clock))
    requires t == s.(workers := s.workers[w := Worker(Refund(userKey), rows, Ready)], refundMux := Some(w))
    ensures Apart(reg, t, delay)
  {
    forall id | id in t.spays && Covered(reg, t, id, delay) ensures ApartRow(t, id) {
      assert Covered(reg, s, id, delay) && ApartRow(s, id);
    }
    forall v | v in t.workers ensures ApartWorker(reg, t, v, delay) {
      if v != w {
        assert ApartWorker(reg, s, v, delay);
        assert forall id :: Covered(reg, t, id, delay) ==> Covered(reg, s, id, delay);
      } else {
        forall k | 0 <= k < |rows| && Covered(reg, t, rows[k].id, delay) ensures !PaidToPayee(t, rows[k].id) {
          var id := rows[k].id;
          assert Covered(reg, s, id, delay) && RowOk(reg, s, id) && ApartRow(s, id);
          WindowsDisjoint(reg, s, id, delay);
        }
      }
    }
  }

  lemma SettleApart(reg: Registry, s: State, t: State, w: int, delay: int)
    requires delay >= 0 && RowsOk(reg, s) && WorkersOk(reg, s) && Apart(reg, s, delay)
    requires CanSettle(reg, s, w) && t == DoSettle(reg, s, w)
    ensures Apart(reg, t, delay)
  {
    var kind, q := s.workers[w].kind, Head(s, w);
    var id := q.id;
    assert WorkerOk(reg, s, w) && HeldOk(s, q) && RowOk(reg, s, id) && ApartWorker(reg, s, w, delay);
    forall i | i in t.spays && Covered(reg, t, i, delay) ensures ApartRow(t, i) {
      assert Covered(reg, s, i, delay) && ApartRow(s, i);
      if i == id && !kind.Refund? && PaidToPayer(s, i) {
        WindowsDisjoint(reg, s, i, delay);
        assert false;
      }
    }
    forall v | v in t.workers ensures ApartWorker(reg, t, v, delay) {
      assert ApartWorker(reg, s, v, delay) && WorkerOk(reg, s, v);
      if t.workers[v].kind.Refund? {
        var todo := t.workers[v].todo;
        forall k | 0 <= k < |todo| && Covered(reg, t, todo[k].id, delay) ensures !PaidToPayee(t, todo[k].id) {
          assert todo[k] == s.workers[v].todo[k] && HeldOk(s, todo[k]);
          assert Covered(reg, s, todo[k].id, delay);
          if todo[k].id == id && !kind.Refund? {
            WindowsDisjoint(reg, s, id, delay);
            assert false;
          }
        }
      }
    }
  }

  lemma CommitApart(reg: Registry, s: State, t: State, w: int, delay: int)
    requires RowsOk(reg, s) && WorkersOk(reg, s) && KeysOk(s) && Apart(reg, s, delay)
    requires At(s, w, Settled) && t == DoCommit(s, w)
    ensures Apart(reg, t, delay)
  {
    var q := Head(s, w);
    assert WorkerOk(reg, s, w) && HeldOk(s, q) && RowOk(reg, s, q.id);
    CommittedRow(reg, s, t, w, q.id);
    CommitApartRows(reg, s, t, w, delay);
    CommitApartWorkers(reg, s, t, w, delay);
  }

  lemma CommitApartRows(reg: Registry, s: State, t: State, w: int, delay: int)
    requires Apart(reg, s, delay) && At(s, w, Settled) && WorkerOk(reg, s, w) && t == DoCommit(s, w)
    requires var id := Head(s, w).id;
      && id in s.spays && t.spays == s.spays[id := s.spays[id].(status := PaidPatch(s.workers[w].kind).status)]
    ensures forall id :: id in t.spays && Covered(reg, t, id, delay) ==> ApartRow(t, id)
  {
  }

  lemma CommitApartWorkers(reg: Registry, s: State, t: State, w: int, delay: int)
    requires Apart(reg, s, delay) && At(s, w, Settled) && t == DoCommit(s, w)
    requires t.spays.Keys == s.spays.Keys && forall id :: id in s.spays ==> SameSpay(s.spays[id], t.spays[id])
    ensures forall v :: v in t.workers ==> ApartWorker(reg, t, v, delay)
  {
  }

  lemma StepApart(reg: Registry, s: State, e: Event, t: State, delay: int)
    requires ValidRegistry(reg) && delay >= 0 && Inv(reg, s) && Apart(reg, s, delay)
    requires Enabled(reg, s, e) && t == Step(reg, s, e) && Serial(s, e) && Prompt(s, delay)
    ensures Apart(reg, t, delay)
  {
    StepInv(reg, s, e, t);
    if e.StartRefund? {
      StartRefundApart(reg, s, t, e.w, e.rows, e.userKey, delay);
    } else if e.Work? && e.act.Settle? {
      SettleApart(reg, s, t, e.w, delay);
    } else if e.Work? && e.act.Commit? {
      CommitApart(reg, s, t, e.w, delay);
    } else {
      StepQuiet(reg, s, e, t);
      QuietApart(reg, s, t, delay);
    }
  }

  /** What a goroutine's quiet step does to the table and to its rows in hand. */
  lemma QuietWork(reg: Registry, s: State, t: State, w: int, act: Action)
    requires CanDo(reg, s, w, act) && t == Do(reg, s, w, act) && Grows(s, t)
    requires !act.Settle? && !act.Commit?
    ensures Quiet(s, t)
  {
  }

  lemma QuietDeliver(reg: Registry, s: State, t: State, rhash: string, w: int)
    requires KeysOk(s) && rhash in s.received && w !in s.workers && t == DoDeliver(s, rhash, w) && Grows(s, t)
    ensures Quiet(s, t)
  {
    DeliverFinds(s, rhash);
    var id := ByHash(s.spays, rhash).value;
    if s.spays[id].status == PayINIT {
      QuietDelivered(s, t, id, w, Updates(s.spays[id], SettledPatch(s.received[rhash])));
    }
  }

  lemma QuietDelivered(s: State, t: State, id: int, w: int, sp: Spay)
    requires id in s.spays && s.spays[id].status == PayINIT && sp.status == UserPayed && Grows(s, t)
    requires t.spays == s.spays[id := sp] && t.workers == s.workers[w := Worker(Monitor, [sp], Ready)]
    requires t.payeePaid == s.payeePaid && t.refunds == s.refunds && t.unrecorded == s.unrecorded
    ensures Quiet(s, t)
  {
  }

  lemma QuietSave(s: State, t: State, h: int)
    requires AnswersOk(s) && h in s.answers && Serial(s, SaveAnswer(h)) && Grows(s, t)
    requires t == s.(spays := s.spays[s.answers[h].id := s.answers[h]], answers := s.answers - {h})
    ensures Quiet(s, t)
  {
  }

  lemma StepQuiet(reg: Registry, s: State, e: Event, t: State)
    requires Inv(reg, s) && Grows(s, t) && Enabled(reg, s, e) && t == Step(reg, s, e) && Serial(s, e)
    requires !e.StartRefund? && !(e.Work? && (e.act.Settle? || e.act.Commit?))
    ensures Quiet(s, t)
  {
    match e {
      case SaveAnswer(h) => QuietSave(s, t, h);
      case Work(w, act) => QuietWork(reg, s, t, w, act);
      case Deliver(rhash, w) => QuietDeliver(reg, s, t, rhash, w);
      case _ => QuietElse(reg, s, e, t);
    }
  }

  lemma QuietElse(reg: Registry, s: State, e: Event, t: State)
    requires Grows(s, t) && Enabled(reg, s, e) && t == Step(reg, s, e)
    requires !e.StartRefund? && !e.Work? && !e.Deliver? && !e.SaveAnswer?
    ensures Quiet(s, t)
  {
  }

  lemma {:induction false} LeadsApart(env: Env, s: State, n: nat, t: State)
    requires ValidRegistry(env.reg) && env.serial && env.prompt && env.delay >= 0
    requires Inv(env.reg, s) && Apart(env.reg, s, env.delay) && Prompt(s, env.delay) && Leads(env, s, n, t)
    ensures Inv(env.reg, t) && Apart(env.reg, t, env.delay) && Prompt(t, env.delay)
  {
    if n > 0 {
      var m, e :| Leads(env, s, n - 1, m) && Next(env, m, e, t);
      LeadsApart(env, s, n - 1, m);
      NextInv(env, m, e, t);
      StepApart(env.reg, m, e, t, env.delay);
    }
  }

  lemma ReachableApart(env: Env, n: nat, t: State)
    requires ValidRegistry(env.reg) && env.serial && env.prompt && env.delay >= 0 && Reachable(env, n, t)
    ensures Inv(env.reg, t) && Apart(env.reg, t, env.delay) && Prompt(t, env.delay)
  {
    var clock :| clock > 0 && Leads(env, Init(clock), n, t);
    LeadsApart(env, Init(clock), n, t);
  }

  /** If every settled payee payment is recorded within the delay, no covered
      spay is ever both paid to the payee and paid back to the payer, in any
      run, over all interleavings of the monitor, the payout goroutines, refund
      and the answers to GETINVOICE. */
  lemma NeverBoth(env: Env, n: nat, t: State, id: int)
    requires ValidRegistry(env.reg) && env.serial && env.prompt && env.delay >= 0 && Reachable(env, n, t)
    requires id in t.spays && Covered(env.reg, t, id, env.delay)
    ensures !(PaidToPayee(t, id) && PaidToPayer(t, id))
  {
    ReachableApart(env, n, t);
    assert ApartRow(t, id);
  }

  // ------------------------------------------------ the order of statuses

  predicate StatusStep(a: Status, b: Status) {
    || a == b
    || (a == PayINIT && b == UserPayed)
    || (a == UserPayed && (b == PayEnd || b == Refunded))
  }

  predicate StatusLe(a: Status, b: Status) {
    a == b || (a == PayINIT && b != Error) || (a == UserPayed && (b == PayEnd || b == Refunded))
  }

  lemma CommitStatus(reg: Registry, s: State, t: State, w: int, id: int, delay: int)
    requires Inv(reg, s) && Apart(reg, s, delay) && At(s, w, Settled) && t == DoCommit(s, w)
    requires id in s.spays && Covered(reg, s, id, delay)
    ensures id in t.spays && StatusStep(s.spays[id].status, t.spays[id].status)
  {
  }

  lemma StepStatus(reg: Registry, s: State, e: Event, t: State, id: int, delay: int)
    requires ValidRegistry(reg) && Inv(reg, s) && Inv(reg, t) && Grows(s, t) && Apart(reg, s, delay)
    requires Enabled(reg, s, e) && t == Step(reg, s, e) && Serial(s, e)
    requires id in s.spays && Covered(reg, t, id, delay)
    ensures StatusStep(s.spays[id].status, t.spays[id].status)
  {
    CoveredBefore(reg, s, t, id, delay);
    if e.Work? && e.act.Commit? {
      CommitStatus(reg, s, t, e.w, id, delay);
    } else if e.StartRefund? || (e.Work? && e.act.Settle?) {
      assert t.spays == s.spays;
    } else {
      StepQuiet(reg, s, e, t);
    }
  }

  lemma NextStatus(env: Env, s: State, e: Event, t: State, id: int)
    requires ValidRegistry(env.reg) && env.serial && Inv(env.reg, s) && Apart(env.reg, s, env.delay)
    requires Next(env, s, e, t) && id in s.spays && id in t.spays && Covered(env.reg, t, id, env.delay)
    ensures StatusStep(s.spays[id].status, t.spays[id].status) && Covered(env.reg, s, id, env.delay)
  {
    StepInv(env.reg, s, e, t);
    CoveredBefore(env.reg, s, t, id, env.delay);
    StepStatus(env.reg, s, e, t, id, env.delay);
  }

  /** The assumptions and invariants under which statuses are ordered. */
  ghost predicate Timed(env: Env, s: State) {
    && ValidRegistry(env.reg) && env.serial && env.prompt && env.delay >= 0
    && Inv(env.reg, s) && Apart(env.reg, s, env.delay) && Prompt(s, env.delay)
  }

  lemma LastStep(env: Env, s: State, n: nat, t: State, id: int) returns (m: State)
    requires n > 0 && Timed(env, s) && Leads(env, s, n, t)
    requires id in s.spays && id in t.spays && Covered(env.reg, t, id, env.delay)
    ensures Leads(env, s, n - 1, m) && id in m.spays && Covered(env.reg, m, id, env.delay)
    ensures StatusStep(m.spays[id].status, t.spays[id].status)
  {
    var e;
    m, e :| Leads(env, s, n - 1, m) && Next(env, m, e, t);
    LeadsApart(env, s, n - 1, m);
    LeadsInv(env, s, n - 1, m);
    NextStatus(env, m, e, t, id);
  }

  /** Over any stretch of a run the status of a covered spay only moves forward
      along PayINIT, UserPayed and then one of PayEnd and Refunded, and both of
      these are final, although no writer of a final status looks at the row. */
  lemma {:induction false} StatusOrder(env: Env, s: State, n: nat, t: State, id: int)
    requires Timed(env, s) && Leads(env, s, n, t)
    requires id in s.spays && id in t.spays && Covered(env.reg, t, id, env.delay)
    ensures StatusLe(s.spays[id].status, t.spays[id].status)
  {
    if n > 0 {
      var m := LastStep(env, s, n, t, id);
      StatusOrder(env, s, n - 1, m, id);
    }
  }

  /** Every state of a run is one StatusOrder starts from. */
  lemma ReachableTimed(env: Env, n: nat, s: State)
    requires ValidRegistry(env.reg) && env.serial && env.prompt && env.delay >= 0 && Reachable(env, n, s)
    ensures Timed(env, s)
  {
    ReachableApart(env, n, s);
  }

  /** However often the node reports the same settled invoice, the monitor starts
      at most one payout goroutine for a spay. */
  lemma LaunchedOnce(env: Env, n: nat, t: State, id: int)
    requires ValidRegistry(env.reg) && env.serial && Reachable(env, n, t) && id in t.spays
    ensures Launches(t, id) <= 1
  {
    ReachableInv(env, n, t);
    assert RowOk(env.reg, t, id);
  }
}
