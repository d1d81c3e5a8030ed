/** When refund pays a spay, for the first time or again: exactly when what its row
    holds lets it through. */
module SpayRepeat {
  import opened Wrappers
  import opened Tables
  import opened Invoices
  import opened SpayProtocol
  import opened SpayAlways

  /** The calls that are made: any, or those with one key only. */
  type Calls = Option<string>

  predicate Made(calls: Calls, userKey: string) { calls.None? || calls.value == userKey }

  /** A call of refund, or a step of one. */
  predicate RefundMove(s: State, e: Event, calls: Calls) {
    || (e.StartRefund? && Made(calls, e.userKey))
    || (e.Work? && e.w in s.workers && s.workers[e.w].kind.Refund? && Made(calls, s.workers[e.w].kind.userKey))
  }

  /** t is reached from s by such calls alone: no time passes and nobody answers. */
  ghost predicate RefundRun(env: Env, s: State, n: nat, t: State, calls: Calls) {
    if n == 0 then s == t
    else exists m :: RefundRun(env, s, n - 1, m, calls) && OneMove(env, m, t, calls)
  }

  ghost predicate OneMove(env: Env, m: State, t: State, calls: Calls) {
    exists e :: RefundMove(m, e, calls) && Next(env, m, e, t)
  }

  /** The row is owed, its Expire has passed, and its payer invoice can be paid. */
  predicate Open(reg: Registry, s: State, id: int) {
    && id in s.spays
    && var r := s.spays[id];
       && r.status == UserPayed && r.expire < s.clock
       && r.payerInvoice in reg && r.payerInvoice !in s.paid && s.clock <= Deadline(reg[r.payerInvoice])
  }

  /** A call with one key concerns that payer's rows, with the empty key all. */
  predicate Concerned(s: State, id: int, calls: Calls)
    requires id in s.spays
  {
    calls.None? || calls.value == "" || s.spays[id].payerAddr == calls.value
  }

  ghost predicate CanPayBack(env: Env, s: State, id: int, calls: Calls) {
    exists n: nat, t: State :: RefundRun(env, s, n, t, calls) && |Refunds(t, id)| > |Refunds(s, id)|
  }

  // ------------------------------------------------ only if

  /** The copy of a row in refund's hands is of one that was open for refund. */
  predicate HeldSince(s: State, q: Spay, calls: Calls) {
    && q.id in s.spays && Concerned(s, q.id, calls) && q.payerInvoice == s.spays[q.id].payerInvoice
    && s.spays[q.id].status == UserPayed && s.spays[q.id].expire < s.clock
  }

  predicate RowsSince(s: State, m: State) {
    && m.clock == s.clock && s.paid <= m.paid && m.spays.Keys == s.spays.Keys
    && forall id :: id in s.spays ==>
         && m.spays[id].payerInvoice == s.spays[id].payerInvoice && m.spays[id].expire == s.spays[id].expire
         && m.spays[id].payerAddr == s.spays[id].payerAddr
         && (m.spays[id].status == s.spays[id].status || m.spays[id].status == Refunded)
  }

  predicate HandsSince(s: State, m: State, calls: Calls) {
    forall w :: w in m.workers && m.workers[w].kind.Refund? ==>
      forall k :: 0 <= k < |m.workers[w].todo| ==> HeldSince(s, m.workers[w].todo[k], calls)
  }

  /** One more refund, with the invoice of the row, which is spent now. */
  predicate PaidBackOnce(reg: Registry, s: State, m: State, id: int, calls: Calls) {
    && Open(reg, s, id) && Concerned(s, id, calls)
    && Refunds(m, id) == Refunds(s, id) + [s.spays[id].payerInvoice] && s.spays[id].payerInvoice in m.paid
  }

  ghost predicate PaidSince(reg: Registry, s: State, m: State, calls: Calls) {
    forall id :: Refunds(m, id) == Refunds(s, id) || PaidBackOnce(reg, s, m, id, calls)
  }

  ghost predicate Since(reg: Registry, s: State, m: State, calls: Calls) {
    RowsSince(s, m) && HandsSince(s, m, calls) && PaidSince(reg, s, m, calls)
  }

  /** A step that pays nothing and leaves what refund goes by. */
  lemma StepAside(reg: Registry, s: State, m: State, w: int, act: Action, calls: Calls)
    requires Since(reg, s, m, calls) && CanDo(reg, m, w, act) && m.workers[w].kind.Refund? && !act.Settle? && !act.Commit?
    ensures Since(reg, s, Do(reg, m, w, act), calls)
  {
    if act.Report? {
      ReportAside(reg, s, m, w, act.msg, calls);
    }
  }

  lemma ReportAside(reg: Registry, s: State, m: State, w: int, msg: string, calls: Calls)
    requires Since(reg, s, m, calls) && At(m, w, Failed) && m.workers[w].kind.Refund?
    ensures Since(reg, s, DoReport(m, w, msg), calls)
  {
  }

  lemma CommitAside(reg: Registry, s: State, m: State, w: int, calls: Calls)
    requires Since(reg, s, m, calls) && At(m, w, Settled) && m.workers[w].kind.Refund?
    ensures Since(reg, s, DoCommit(m, w), calls)
  {
  }

  /** What settles was open from the start. */
  lemma SettleSince(reg: Registry, s: State, m: State, w: int, calls: Calls)
    requires Since(reg, s, m, calls) && CanSettle(reg, m, w) && m.workers[w].kind.Refund?
    ensures Since(reg, s, DoSettle(reg, m, w), calls)
  {
    assert HeldSince(s, m.workers[w].todo[0], calls);
    assert Open(reg, s, Head(m, w).id);
  }

  lemma StartSince(reg: Registry, s: State, m: State, t: State, w: int, userKey: string, rows: seq<Spay>, calls: Calls)
    requires Made(calls, userKey)
    requires Since(reg, s, m, calls) && w !in m.workers && Selected(rows, m.spays, r => Refundable(r, userKey, m.clock))
    requires t == m.(workers := m.workers[w := Worker(Refund(userKey), rows, Ready)], refundMux := Some(w))
    ensures Since(reg, s, t, calls)
  {
    forall k | 0 <= k < |rows| ensures HeldSince(s, rows[k], calls) {
      assert rows[k] == m.spays[rows[k].id];
    }
  }

  lemma StepSince(reg: Registry, s: State, m: State, e: Event, t: State, calls: Calls)
    requires Since(reg, s, m, calls) && RefundMove(m, e, calls) && Enabled(reg, m, e) && t == Step(reg, m, e)
    ensures Since(reg, s, t, calls)
  {
    match e {
      case StartRefund(w, userKey, rows) => StartSince(reg, s, m, t, w, userKey, rows, calls);
      case Work(w, act) => WorkSince(reg, s, m, w, act, calls);
    }
  }

  lemma WorkSince(reg: Registry, s: State, m: State, w: int, act: Action, calls: Calls)
    requires Since(reg, s, m, calls) && CanDo(reg, m, w, act) && m.workers[w].kind.Refund?
    ensures Since(reg, s, Do(reg, m, w, act), calls)
  {
    match act {
      case Settle => SettleSince(reg, s, m, w, calls);
      case Commit => CommitAside(reg, s, m, w, calls);
      case _ => StepAside(reg, s, m, w, act, calls);
    }
  }

  lemma MoveSince(env: Env, s: State, m: State, t: State, calls: Calls)
    requires Since(env.reg, s, m, calls) && OneMove(env, m, t, calls)
    ensures Since(env.reg, s, t, calls)
  {
    var e :| RefundMove(m, e, calls) && Next(env, m, e, t);
    StepSince(env.reg, s, m, e, t, calls);
  }

  lemma {:induction false} RunSince(env: Env, s: State, n: nat, t: State, calls: Calls)
    requires Since(env.reg, s, s, calls) && RefundRun(env, s, n, t, calls)
    ensures Since(env.reg, s, t, calls)
  {
    if n > 0 {
      var m :| RefundRun(env, s, n - 1, m, calls) && OneMove(env, m, t, calls);
      RunSince(env, s, n - 1, m, calls);
      MoveSince(env, s, m, t, calls);
    }
  }

  lemma NobodyInside(reg: Registry, s: State, calls: Calls)
    requires WorkersSound(reg, s) && s.refundMux == None
    ensures Since(reg, s, s, calls)
  {
    forall w | w in s.workers ensures !s.workers[w].kind.Refund? {
      assert WorkerSound(reg, s, w);
    }
  }

  // ------------------------------------------------ if

  lemma {:induction false} FreshKey(keys: set<int>) returns (x: int)
    ensures forall k :: k in keys ==> k < x
    decreases |keys|
  {
    x := 0;
    match First(keys) {
      case None =>
      case Some(j) =>
        var y := FreshKey(keys - {j});
        x := if j < y then y else j + 1;
        assert forall k :: k in keys ==> k == j || k in keys - {j};
    }
  }

  /** Rows with a key in `left` that the query selects, each once. */
  ghost predicate Lists(rows: seq<Spay>, s: State, userKey: string, left: set<int>) {
    && (forall k :: 0 <= k < |rows| ==>
          rows[k].id in left && rows[k].id in s.spays && rows[k] == s.spays[rows[k].id]
          && Refundable(rows[k], userKey, s.clock))
    && (forall i :: i in left && i in s.spays && Refundable(s.spays[i], userKey, s.clock) ==> s.spays[i] in rows)
    && (forall j, k :: 0 <= j < k < |rows| ==> rows[j].id != rows[k].id)
  }

  lemma {:induction false} Listing(s: State, userKey: string, left: set<int>) returns (rows: seq<Spay>)
    requires forall id :: id in s.spays ==> s.spays[id].id == id
    ensures Lists(rows, s, userKey, left)
    decreases |left|
  {
    rows := [];
    match First(left) {
      case None =>
      case Some(j) =>
        rows := Listing(s, userKey, left - {j});
        rows := ListOne(s, userKey, left, j, rows);
    }
  }

  lemma ListOne(s: State, userKey: string, left: set<int>, j: int, rows: seq<Spay>) returns (more: seq<Spay>)
    requires forall id :: id in s.spays ==> s.spays[id].id == id
    requires j in left && Lists(rows, s, userKey, left - {j})
    ensures Lists(more, s, userKey, left)
    ensures j in s.spays && Refundable(s.spays[j], userKey, s.clock) ==> more != [] && more[0] == s.spays[j]
  {
    more := if j in s.spays && Refundable(s.spays[j], userKey, s.clock) then [s.spays[j]] + rows else rows;
  }

  /** What the query of refund may return, the wanted row first. */
  lemma Query(s: State, userKey: string, id: int) returns (rows: seq<Spay>)
    requires forall i :: i in s.spays ==> s.spays[i].id == i
    requires id in s.spays && Refundable(s.spays[id], userKey, s.clock)
    ensures Selected(rows, s.spays, r => Refundable(r, userKey, s.clock)) && rows != [] && rows[0] == s.spays[id]
  {
    var rest := Listing(s, userKey, s.spays.Keys - {id});
    rows := ListOne(s, userKey, s.spays.Keys, id, rest);
  }

  /** The switches on states hold. */
  ghost predicate Fits(env: Env, s: State) {
    (env.prompt ==> Prompt(s, env.delay)) && (env.kept ==> Kept(s))
  }

  lemma ReachableFits(env: Env, n: nat, s: State)
    requires Reachable(env, n, s)
    ensures Fits(env, s)
  {
    if n > 0 {
      var clock :| clock > 0 && Leads(env, Init(clock), n, s);
      var m, e :| Leads(env, Init(clock), n - 1, m) && Next(env, m, e, s);
    }
  }

  lemma Further(env: Env, s: State, n: nat, m: State, e: Event, t: State, calls: Calls)
    requires RefundRun(env, s, n, m, calls) && RefundMove(m, e, calls) && Next(env, m, e, t)
    ensures RefundRun(env, s, n + 1, t, calls)
  {
    assert OneMove(env, m, t, calls);
    assert RefundRun(env, s, n + 1 - 1, m, calls);
  }

  /** A step of refund after which the switches still hold can be taken. */
  lemma FurtherWork(env: Env, s: State, n: nat, m: State, w: int, act: Action, t: State, calls: Calls)
    requires RefundRun(env, s, n, m, calls) && w in m.workers
    requires m.workers[w].kind.Refund? && Made(calls, m.workers[w].kind.userKey)
    requires CanDo(env.reg, m, w, act) && t == Do(env.reg, m, w, act) && Fits(env, t)
    ensures RefundRun(env, s, n + 1, t, calls)
  {
    Further(env, s, n, m, Work(w, act), t, calls);
  }

  lemma Started(env: Env, s: State, w: int, userKey: string, rows: seq<Spay>, t: State, calls: Calls)
    requires Fits(env, s) && w !in s.workers && s.refundMux == None && Made(calls, userKey)
    requires Selected(rows, s.spays, r => Refundable(r, userKey, s.clock))
    requires t == s.(workers := s.workers[w := Worker(Refund(userKey), rows, Ready)], refundMux := Some(w))
    ensures RefundRun(env, s, 1, t, calls)
  {
    assert RefundRun(env, s, 0, s, calls);
    Further(env, s, 0, s, StartRefund(w, userKey, rows), t, calls);
  }

  /** refund is called, sends the first row's payment, and it settles. */
  lemma SettledFirst(env: Env, s: State, w: int, userKey: string, rows: seq<Spay>, m: State, calls: Calls)
    returns (t: State)
    requires RefundRun(env, s, 1, m, calls) && Fits(env, m) && rows != [] && Open(env.reg, m, rows[0].id)
    requires rows[0] == m.spays[rows[0].id] && Made(calls, userKey)
    requires w in m.workers && m.workers[w] == Worker(Refund(userKey), rows, Ready)
    ensures RefundRun(env, s, 3, t, calls) && Refunds(t, rows[0].id) == Refunds(m, rows[0].id) + [rows[0].payerInvoice]
  {
    var m2 := SetPhase(m, w, Sent);
    FurtherWork(env, s, 1, m, w, Send, m2, calls);
    t := DoSettle(env.reg, m2, w);
    FurtherWork(env, s, 2, m2, w, Settle, t, calls);
  }

  lemma OpenPays(env: Env, s: State, id: int, calls: Calls)
    requires ValidRegistry(env.reg) && Fits(env, s) && s.refundMux == None && Open(env.reg, s, id)
    requires Concerned(s, id, calls) && forall i :: i in s.spays ==> s.spays[i].id == i
    ensures CanPayBack(env, s, id, calls)
  {
    var userKey := if calls.Some? then calls.value else "";
    var w := FreshKey(s.workers.Keys);
    assert w !in s.workers;
    var rows := Query(s, userKey, id);
    var m := s.(workers := s.workers[w := Worker(Refund(userKey), rows, Ready)], refundMux := Some(w));
    Started(env, s, w, userKey, rows, m, calls);
    var t := SettledFirst(env, s, w, userKey, rows, m, calls);
    assert Refunds(m, id) == Refunds(s, id);
  }

  /** What refund alone does to the payments of a spay: nothing, or one more, with
      the payer invoice of its row. */
  lemma PaysRowInvoice(env: Env, n: nat, s: State, k: nat, t: State, id: int, calls: Calls)
    requires ValidRegistry(env.reg) && Reachable(env, n, s) && s.refundMux == None && id in s.spays
    requires RefundRun(env, s, k, t, calls)
    ensures Refunds(t, id) == Refunds(s, id)
         || (Open(env.reg, s, id) && Concerned(s, id, calls) && Refunds(t, id) == Refunds(s, id) + [s.spays[id].payerInvoice])
  {
    ReachableSound(env, n, s);
    NobodyInside(env.reg, s, calls);
    RunSince(env, s, k, t, calls);
  }

  /** With nobody inside refund, calls of refund alone, all of them or those with one
      key, pay a spay back, for the first time, again after a lost write, or although
      the payee has been paid, if and only if its row is UserPayed, its Expire has
      passed, its payer invoice is one that can still be paid, and its payer is the
      one called for, if one is.  It does not matter how the row came to say so. */
  lemma PaysBackIff(env: Env, n: nat, s: State, id: int, calls: Calls)
    requires ValidRegistry(env.reg) && Reachable(env, n, s) && s.refundMux == None && id in s.spays
    ensures CanPayBack(env, s, id, calls) <==>
      Open(env.reg, s, id) && (calls.None? || calls.value == "" || s.spays[id].payerAddr == calls.value)
  {
    if Open(env.reg, s, id) && Concerned(s, id, calls) {
      ReachableSound(env, n, s);
      ReachableFits(env, n, s);
      forall i | i in s.spays ensures s.spays[i].id == i { assert RowSound(env.reg, s, i); }
      OpenPays(env, s, id, calls);
    } else if CanPayBack(env, s, id, calls) {
      var k: nat, t: State :| RefundRun(env, s, k, t, calls) && |Refunds(t, id)| > |Refunds(s, id)|;
      PaysRowInvoice(env, n, s, k, t, id, calls);
      assert false;
    }
  }
}
