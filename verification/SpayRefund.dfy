/** A spay is refunded at most once. */
module SpayRefund {
  import opened Wrappers
  import opened Tables
  import opened Invoices
  import opened SpayProtocol
  import opened SpayInvariant
  import opened SpayTheorems

  /** refund has paid this spay and has not yet written the status. */
  predicate InFlight(s: State, id: int) {
    && s.refundMux.Some?
    && var w := s.refundMux.value;
       At(s, w, Settled) && s.workers[w].kind.Refund? && Head(s, w).id == id
  }

  /** Two readings of the books: lost writes excuse a second refund, or not. */
  predicate Excused(s: State, id: int, lost: bool) { lost && id in s.refundLost }

  /** Whoever has been paid back is no longer open for refund, or refund is about
      to say so, or its write has failed. */
  predicate OnceRow(s: State, id: int, lost: bool)
    requires id in s.spays
  {
    && (|Refunds(s, id)| <= 1 || Excused(s, id, lost))
    && (PaidToPayer(s, id) && s.spays[id].status == UserPayed ==> InFlight(s, id) || id in s.refundLost)
  }

  /** A row in refund's hands that was paid back before carries a spent invoice. */
  predicate OnceWorker(s: State, w: int, lost: bool)
    requires w in s.workers
  {
    s.workers[w].kind.Refund? ==>
      forall k :: 0 <= k < |s.workers[w].todo| ==>
        PaidToPayer(s, s.workers[w].todo[k].id) ==>
          s.workers[w].todo[k].payerInvoice in s.paid || Excused(s, s.workers[w].todo[k].id, lost)
  }

  predicate Once(s: State, lost: bool) {
    && (forall id :: id in s.spays ==> OnceRow(s, id, lost))
    && (forall w :: w in s.workers ==> OnceWorker(s, w, lost))
  }

  lemma QuietOnce(reg: Registry, s: State, t: State, lost: bool)
    requires RowsOk(reg, s) && KeysOk(s) && Once(s, lost) && Quiet(s, t)
    requires s.paid <= t.paid && s.refundLost <= t.refundLost
    requires forall id :: InFlight(s, id) || id in s.refundLost ==> InFlight(t, id) || id in t.refundLost
    ensures Once(t, lost)
  {
    forall id | id in t.spays ensures OnceRow(t, id, lost) {
      if id in s.spays {
        assert OnceRow(s, id, lost) && RowOk(reg, s, id);
      } else {
        assert Refunds(t, id) == [];
      }
    }
    forall w | w in t.workers ensures OnceWorker(t, w, lost) {
      if t.workers[w].kind.Refund? {
        assert OnceWorker(s, w, lost);
        var todo := t.workers[w].todo;
        forall k | 0 <= k < |todo| && PaidToPayer(t, todo[k].id) ensures todo[k].payerInvoice in t.paid || Excused(t, todo[k].id, lost) {
          assert todo[k] in s.workers[w].todo;
        }
      }
    }
  }

  /** Only a failed write takes refund out of the span between its payment and
      the status write. */
  lemma FlightKept(reg: Registry, s: State, e: Event, t: State, id: int)
    requires WorkersOk(reg, s) && Enabled(reg, s, e) && t == Step(reg, s, e)
    requires !(e.Work? && (e.act.Settle? || e.act.Commit?)) && InFlight(s, id)
    ensures InFlight(t, id) || id in t.refundLost
  {
    var w := s.refundMux.value;
    assert WorkerOk(reg, s, w);
    if e.Work? {
      FlightWork(reg, s, t, e.w, e.act, id);
    }
  }

  lemma FlightWork(reg: Registry, s: State, t: State, w: int, act: Action, id: int)
    requires CanDo(reg, s, w, act) && t == Do(reg, s, w, act) && WorkerOk(reg, s, w)
    requires !act.Settle? && !act.Commit? && InFlight(s, id)
    ensures InFlight(t, id) || id in t.refundLost
  {
  }

  lemma LostKept(reg: Registry, s: State, e: Event, t: State)
    requires Enabled(reg, s, e) && t == Step(reg, s, e)
    ensures s.refundLost <= t.refundLost && s.paid <= t.paid
  {
    match e {
      case Work(w, act) => LostWork(reg, s, t, w, act);
      case Deliver(rhash, w) => assert t.refundLost == s.refundLost && t.paid == s.paid;
      case _ =>
    }
  }

  lemma LostCommit(s: State, w: int)
    requires At(s, w, Settled)
    ensures var t := DoCommit(s, w);
      t.refundLost == s.refundLost && t.paid == s.paid && t.refunds == s.refunds
  {
  }

  lemma LostWork(reg: Registry, s: State, t: State, w: int, act: Action)
    requires CanDo(reg, s, w, act) && t == Do(reg, s, w, act)
    ensures s.refundLost <= t.refundLost && s.paid <= t.paid
  {
  }

  lemma StartOnce(reg: Registry, s: State, t: State, w: int, rows: seq<Spay>, userKey: string, lost: bool)
    requires RowsOk(reg, s) && Once(s, lost) && (lost || Kept(s)) && w !in s.workers && s.refundMux == None
    requires Selected(rows, s.spays, r => Refundable(r, userKey, s.clock))
    requires t == s.(workers := s.workers[w := Worker(Refund(userKey), rows, Ready)], refundMux := Some(w))
    ensures Once(t, lost)
  {
    forall id | id in t.spays ensures OnceRow(t, id, lost) {
      assert OnceRow(s, id, lost);
    }
    forall v | v in t.workers ensures OnceWorker(t, v, lost) {
      if v != w {
        assert OnceWorker(s, v, lost);
      } else {
        forall k | 0 <= k < |rows| && PaidToPayer(t, rows[k].id) ensures rows[k].payerInvoice in t.paid || Excused(t, rows[k].id, lost) {
          assert OnceRow(s, rows[k].id, lost);
        }
      }
    }
  }

  lemma SettleOnce(reg: Registry, s: State, t: State, w: int, lost: bool)
    requires WorkersOk(reg, s) && Once(s, lost) && CanSettle(reg, s, w) && t == DoSettle(reg, s, w)
    ensures Once(t, lost)
  {
    assert WorkerOk(reg, s, w) && OnceWorker(s, w, lost);
    var q := Head(s, w);
    forall id | id in t.spays ensures OnceRow(t, id, lost) {
      assert OnceRow(s, id, lost);
    }
    forall v | v in t.workers ensures OnceWorker(t, v, lost) {
      assert OnceWorker(s, v, lost) && WorkerOk(reg, s, v);
      if t.workers[v].kind.Refund? {
        var todo := t.workers[v].todo;
        assert todo == s.workers[v].todo;
        forall k | 0 <= k < |todo| && PaidToPayer(t, todo[k].id) ensures todo[k].payerInvoice in t.paid || Excused(t, todo[k].id, lost) {
          if !PaidToPayer(s, todo[k].id) {
            assert s.workers[w].kind.Refund? && v == w && todo[k].id == q.id;
            assert k == 0;
          }
        }
      }
    }
  }

  lemma CommitOnce(reg: Registry, s: State, t: State, w: int, lost: bool)
    requires RowsOk(reg, s) && WorkersOk(reg, s) && KeysOk(s) && Once(s, lost) && At(s, w, Settled) && t == DoCommit(s, w)
    ensures Once(t, lost)
  {
    var q := Head(s, w);
    assert WorkerOk(reg, s, w) && HeldOk(s, q) && RowOk(reg, s, q.id);
    CommittedRow(reg, s, t, w, q.id);
    CommitOnceRows(s, t, w, lost);
    CommitOnceWorkers(s, t, w, lost);
  }

  lemma CommitOnceRows(s: State, t: State, w: int, lost: bool)
    requires forall id :: id in s.spays ==> OnceRow(s, id, lost)
    requires At(s, w, Settled) && t == DoCommit(s, w) && (s.workers[w].kind.Refund? ==> s.refundMux == Some(w))
    requires var id := Head(s, w).id;
      && id in s.spays && t.spays == s.spays[id := s.spays[id].(status := PaidPatch(s.workers[w].kind).status)]
    ensures forall id :: id in t.spays ==> OnceRow(t, id, lost)
  {
    LostCommit(s, w);
    forall id | id in t.spays ensures OnceRow(t, id, lost) {
      assert OnceRow(s, id, lost);
      if InFlight(s, id) && id != Head(s, w).id {
        FlightCommit(s, w, id);
      }
    }
  }

  lemma FlightCommit(s: State, w: int, id: int)
    requires At(s, w, Settled) && InFlight(s, id) && id != Head(s, w).id
    requires s.workers[w].kind.Refund? ==> s.refundMux == Some(w)
    ensures InFlight(DoCommit(s, w), id)
  {
  }

  lemma CommitOnceWorkers(s: State, t: State, w: int, lost: bool)
    requires Once(s, lost) && At(s, w, Settled) && t == DoCommit(s, w)
    ensures forall v :: v in t.workers ==> OnceWorker(t, v, lost)
  {
  }

  lemma StepOnce(reg: Registry, s: State, e: Event, t: State, lost: bool)
    requires ValidRegistry(reg) && Inv(reg, s) && Once(s, lost) && (lost || Kept(s))
    requires Enabled(reg, s, e) && t == Step(reg, s, e) && Serial(s, e)
    ensures Once(t, lost)
  {
    StepInv(reg, s, e, t);
    if e.StartRefund? {
      StartOnce(reg, s, t, e.w, e.rows, e.userKey, lost);
    } else if e.Work? && e.act.Settle? {
      SettleOnce(reg, s, t, e.w, lost);
    } else if e.Work? && e.act.Commit? {
      CommitOnce(reg, s, t, e.w, lost);
    } else {
      StepQuiet(reg, s, e, t);
      LostKept(reg, s, e, t);
      forall id | InFlight(s, id) || id in s.refundLost ensures InFlight(t, id) || id in t.refundLost {
        if InFlight(s, id) {
          FlightKept(reg, s, e, t, id);
        }
      }
      QuietOnce(reg, s, t, lost);
    }
  }

  /** Either lost writes are an excuse, or the run is under `kept`. */
  ghost predicate Reading(env: Env, s: State, lost: bool) {
    lost || (env.kept && Kept(s))
  }

  ghost predicate OnceSound(env: Env, s: State, lost: bool) {
    Inv(env.reg, s) && Once(s, lost) && Reading(env, s, lost)
  }

  lemma NextOnce(env: Env, s: State, e: Event, t: State, lost: bool)
    requires ValidRegistry(env.reg) && env.serial && OnceSound(env, s, lost) && Next(env, s, e, t)
    ensures OnceSound(env, t, lost)
  {
    NextInv(env, s, e, t);
    StepOnce(env.reg, s, e, t, lost);
  }

  lemma LastOnce(env: Env, s: State, n: nat, t: State, lost: bool) returns (m: State)
    requires ValidRegistry(env.reg) && env.serial && n > 0 && Leads(env, s, n, t)
    ensures Leads(env, s, n - 1, m) && (OnceSound(env, m, lost) ==> OnceSound(env, t, lost))
  {
    var e;
    m, e :| Leads(env, s, n - 1, m) && Next(env, m, e, t);
    if OnceSound(env, m, lost) {
      NextOnce(env, m, e, t, lost);
    }
  }

  lemma {:induction false} LeadsOnce(env: Env, s: State, n: nat, t: State, lost: bool)
    requires ValidRegistry(env.reg) && env.serial && OnceSound(env, s, lost) && Leads(env, s, n, t)
    ensures OnceSound(env, t, lost)
  {
    if n > 0 {
      var m := LastOnce(env, s, n, t, lost);
      LeadsOnce(env, s, n - 1, m, lost);
    }
  }

  lemma ReachableOnce(env: Env, n: nat, t: State, lost: bool)
    requires ValidRegistry(env.reg) && env.serial && (lost || env.kept) && Reachable(env, n, t)
    ensures Once(t, lost)
  {
    var clock :| clock > 0 && Leads(env, Init(clock), n, t);
    LeadsOnce(env, Init(clock), n, t, lost);
  }

  /** Over every interleaving of refund calls and GETINVOICE_RES messages a spay
      is paid back at most once, also when its payer invoice is replaced while a
      refund is in flight, and also when the Refunded write fails after a
      successful payment and the row still carries the invoice that was paid. */
  lemma RefundedOnce(env: Env, n: nat, t: State, id: int)
    requires ValidRegistry(env.reg) && env.serial && env.kept && Reachable(env, n, t) && id in t.spays
    ensures |Refunds(t, id)| <= 1
  {
    ReachableOnce(env, n, t, false);
    assert OnceRow(t, id, false);
  }

  /** Whatever payers hand in, a second refund takes a Refunded write that was
      lost after a settled refund. */
  lemma TwiceOnlyIfLost(env: Env, n: nat, t: State, id: int)
    requires ValidRegistry(env.reg) && env.serial && Reachable(env, n, t) && id in t.spays
    ensures |Refunds(t, id)| > 1 ==> id in t.refundLost
  {
    ReachableOnce(env, n, t, true);
    assert OnceRow(t, id, true);
  }
}
