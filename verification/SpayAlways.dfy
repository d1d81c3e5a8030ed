/** What every run of the agency-payment protocol keeps, with no assumption on
    stale saves, delays, lost writes or payers' answers. */
module SpayAlways {
  import opened Wrappers
  import opened Tables
  import opened Invoices
  import opened SpayProtocol
  import opened SpayInvariant

  /** The payer has settled the server's invoice for this row. */
  predicate Arrived(s: State, r: Spay) { r.siPayHash in s.received }

  /** Nothing is paid for a spay before its server invoice is settled, and its user
      invoice is paid for it once. */
  predicate RowSound(reg: Registry, s: State, id: int)
    requires id in s.spays
  {
    var r := s.spays[id];
    && r.id == id && FixedOk(reg, r)
    && (r.status != PayINIT || PaidToPayee(s, id) || PaidToPayer(s, id) ==> Arrived(s, r))
    && (PaidToPayee(s, id) ==> r.userInvoice in s.paid)
  }

  /** A copy of a row held by a goroutine. */
  predicate HeldSound(s: State, q: Spay) {
    q.id in s.spays && SameSpay(q, s.spays[q.id]) && Arrived(s, q)
  }

  predicate WorkerSound(reg: Registry, s: State, w: int)
    requires w in s.workers
  {
    var wk := s.workers[w];
    && (forall k :: 0 <= k < |wk.todo| ==> HeldSound(s, wk.todo[k]))
    && (wk.phase == Sent ==> wk.todo != [] && HeadTarget(s, w) in reg)
    && (wk.kind.Refund? ==> s.refundMux == Some(w))
  }

  predicate AnswerSound(s: State, a: Spay) {
    a.id in s.spays && SameSpay(a, s.spays[a.id]) && (a.status != PayINIT ==> Arrived(s, a))
  }

  ghost predicate RowsSound(reg: Registry, s: State) {
    forall id :: id in s.spays ==> RowSound(reg, s, id)
  }

  ghost predicate WorkersSound(reg: Registry, s: State) {
    forall w :: w in s.workers ==> WorkerSound(reg, s, w)
  }

  predicate AnswersSound(s: State) {
    forall h :: h in s.answers ==> AnswerSound(s, s.answers[h])
  }

  ghost predicate Sound(reg: Registry, s: State) {
    RowsSound(reg, s) && WorkersSound(reg, s) && AnswersSound(s) && KeysOk(s)
  }

  /** Rows keep what is fixed at creation, and what has arrived has arrived. */
  predicate Extends(s: State, t: State) {
    && s.spays.Keys <= t.spays.Keys && s.received.Keys <= t.received.Keys
    && forall id :: id in s.spays ==> SameSpay(s.spays[id], t.spays[id])
  }

  /** A step that moves no money. */
  predicate Plain(s: State, t: State) {
    && t.spays.Keys == s.spays.Keys && t.received == s.received && t.payeePaid == s.payeePaid
    && t.refunds == s.refunds && t.paid == s.paid && t.cash == s.cash && s.clock <= t.clock
    && t.unrecorded <= s.unrecorded && t.launched.Keys <= s.spays.Keys
    && forall id :: id in s.spays ==>
         SameSpay(s.spays[id], t.spays[id]) && (t.spays[id].status != PayINIT ==> Arrived(s, s.spays[id]))
  }

  lemma PlainRows(reg: Registry, s: State, t: State)
    requires RowsSound(reg, s) && Plain(s, t)
    ensures RowsSound(reg, t)
  {
    forall id | id in t.spays ensures RowSound(reg, t, id) {
      assert RowSound(reg, s, id);
    }
  }

  lemma PlainKeys(s: State, t: State)
    requires KeysOk(s) && Plain(s, t)
    ensures KeysOk(t) && Extends(s, t)
  {
    HashesOk(s, t);
  }

  // ------------------------------------------------ which steps are plain

  lemma PlainDeliver(s: State, t: State, rhash: string, w: int)
    requires Plain(s, s) && KeysOk(s) && rhash in s.received && t == DoDeliver(s, rhash, w)
    ensures Plain(s, t)
  {
    DeliverFinds(s, rhash);
    var id := ByHash(s.spays, rhash).value;
    if s.spays[id].status == PayINIT {
      PlainDelivered(s, t, id, Updates(s.spays[id], SettledPatch(s.received[rhash])));
    }
  }

  lemma PlainDelivered(s: State, t: State, id: int, sp: Spay)
    requires Plain(s, s) && id in s.spays && SameSpay(s.spays[id], sp) && Arrived(s, s.spays[id])
    requires t == s.(spays := s.spays[id := sp], workers := t.workers, launched := s.launched[id := Launches(s, id) + 1])
    ensures Plain(s, t)
  {
  }

  lemma PlainSave(reg: Registry, s: State, t: State, h: int)
    requires RowsSound(reg, s) && KeysOk(s) && h in s.answers && AnswerSound(s, s.answers[h])
    requires t == s.(spays := s.spays[s.answers[h].id := s.answers[h]], answers := s.answers - {h})
    ensures Plain(s, t)
  {
    forall id | id in s.spays ensures s.spays[id].status != PayINIT ==> Arrived(s, s.spays[id]) {
      assert RowSound(reg, s, id);
    }
  }

  lemma PlainReport(s: State, w: int, msg: string)
    requires At(s, w, Failed) && Plain(s, s)
    ensures Plain(s, DoReport(s, w, msg))
  {
  }

  lemma PlainCommit(s: State, w: int)
    requires At(s, w, Settled) && Plain(s, s) && HeldSound(s, Head(s, w))
    ensures Plain(s, DoCommit(s, w))
  {
  }

  lemma PlainWork(reg: Registry, s: State, w: int, act: Action)
    requires WorkersSound(reg, s) && Plain(s, s) && CanDo(reg, s, w, act) && !act.Settle?
    ensures Plain(s, Do(reg, s, w, act))
  {
    match act {
      case Report(msg) => PlainReport(s, w, msg);
      case Commit =>
        assert WorkerSound(reg, s, w) && HeldSound(s, s.workers[w].todo[0]);
        PlainCommit(s, w);
      case _ =>
    }
  }

  lemma StandsStill(reg: Registry, s: State)
    requires RowsSound(reg, s) && KeysOk(s)
    ensures Plain(s, s)
  {
    forall id | id in s.spays ensures s.spays[id].status != PayINIT ==> Arrived(s, s.spays[id]) {
      assert RowSound(reg, s, id);
    }
  }

  predicate Quiescent(e: Event) { !e.Create? && !e.PayServer? && !(e.Work? && e.act.Settle?) }

  lemma StepPlain(reg: Registry, s: State, e: Event, t: State)
    requires Sound(reg, s) && Enabled(reg, s, e) && t == Step(reg, s, e) && Quiescent(e)
    ensures Plain(s, t)
  {
    StandsStill(reg, s);
    match e {
      case Deliver(rhash, w) => PlainDeliver(s, t, rhash, w);
      case SaveAnswer(h) => PlainSave(reg, s, t, h);
      case Work(w, act) => PlainWork(reg, s, w, act);
      case _ =>
    }
  }

  // ------------------------------------------------ goroutines

  /** A goroutine that did not move. */
  lemma IdleSound(reg: Registry, s: State, t: State, w: int)
    requires Extends(s, t) && w in s.workers && w in t.workers && s.workers[w] == t.workers[w]
    requires WorkerSound(reg, s, w) && (s.workers[w].kind.Refund? ==> t.refundMux == s.refundMux)
    ensures WorkerSound(reg, t, w)
  {
    forall k | 0 <= k < |t.workers[w].todo| ensures HeldSound(t, t.workers[w].todo[k]) {
      assert HeldSound(s, s.workers[w].todo[k]);
    }
  }

  lemma OthersSound(reg: Registry, s: State, t: State, w: int)
    requires WorkersSound(reg, s) && Extends(s, t) && OthersSame(s, t, w) && MuxOk(s, t, w)
    requires w in t.workers ==> WorkerSound(reg, t, w)
    ensures WorkersSound(reg, t)
  {
    forall v | v in t.workers ensures WorkerSound(reg, t, v) {
      if v != w {
        assert WorkerSound(reg, s, v);
        IdleSound(reg, s, t, v);
      }
    }
  }

  lemma NobodySound(reg: Registry, s: State, t: State)
    requires WorkersSound(reg, s) && Extends(s, t) && t.workers == s.workers && t.refundMux == s.refundMux
    ensures WorkersSound(reg, t)
  {
    forall v | v in t.workers ensures WorkerSound(reg, t, v) {
      assert WorkerSound(reg, s, v);
      IdleSound(reg, s, t, v);
    }
  }

  /** A goroutine that has moved. */
  lemma MovedSound(reg: Registry, s: State, t: State, w: int)
    requires TodoShrinks(s, t, w) && WorkerSound(reg, s, w) && Extends(s, t)
    requires t.workers[w].kind.Refund? ==> t.refundMux == s.refundMux
    requires t.workers[w].phase == Sent ==> t.workers[w].todo != [] && HeadTarget(t, w) in reg
    ensures WorkerSound(reg, t, w)
  {
    var before, todo := s.workers[w].todo, t.workers[w].todo;
    forall k | 0 <= k < |todo| ensures HeldSound(t, todo[k]) {
      var j := if todo == before then k else k + 1;
      assert todo[k] == before[j] && HeldSound(s, before[j]);
    }
  }

  lemma StartSound(reg: Registry, s: State, t: State, w: int, kind: Kind, rows: seq<Spay>)
    requires RowsSound(reg, s) && WorkersSound(reg, s) && w !in s.workers
    requires forall k :: 0 <= k < |rows| ==>
               rows[k].id in s.spays && s.spays[rows[k].id] == rows[k] && rows[k].status == UserPayed
    requires kind.Refund? ==> s.refundMux == None
    requires t == s.(workers := s.workers[w := Worker(kind, rows, Ready)],
                     refundMux := if kind.Refund? then Some(w) else s.refundMux)
    ensures WorkersSound(reg, t)
  {
    forall k | 0 <= k < |rows| ensures HeldSound(t, rows[k]) {
      assert RowSound(reg, s, rows[k].id);
    }
    OthersSound(reg, s, t, w);
  }

  lemma StartRefundSound(reg: Registry, s: State, t: State, w: int, userKey: string, rows: seq<Spay>)
    requires RowsSound(reg, s) && WorkersSound(reg, s) && w !in s.workers && s.refundMux == None
    requires Selected(rows, s.spays, r => Refundable(r, userKey, s.clock))
    requires t == s.(workers := s.workers[w := Worker(Refund(userKey), rows, Ready)], refundMux := Some(w))
    ensures WorkersSound(reg, t)
  {
    StartSound(reg, s, t, w, Refund(userKey), rows);
  }

  lemma StartRunUserSound(reg: Registry, s: State, t: State, w: int, userId: int, rows: seq<Spay>)
    requires RowsSound(reg, s) && WorkersSound(reg, s) && w !in s.workers
    requires Selected(rows, s.spays, r => Payable(r, userId, s.clock))
    requires t == s.(workers := s.workers[w := Worker(RunUser, rows, Ready)])
    ensures WorkersSound(reg, t)
  {
    StartSound(reg, s, t, w, RunUser, rows);
  }

  lemma DeliverSound(reg: Registry, s: State, t: State, rhash: string, w: int)
    requires RowsSound(reg, s) && WorkersSound(reg, s) && KeysOk(s) && rhash in s.received && w !in s.workers
    requires t == DoDeliver(s, rhash, w) && Extends(s, t)
    ensures WorkersSound(reg, t)
  {
    DeliverFinds(s, rhash);
    var id := ByHash(s.spays, rhash).value;
    if s.spays[id].status == PayINIT {
      assert RowSound(reg, s, id);
      assert HeldSound(t, t.spays[id]);
      OthersSound(reg, s, t, w);
    }
  }

  /** What a step of a goroutine does to the goroutines. */
  lemma WorkMoves(reg: Registry, s: State, w: int, act: Action)
    requires CanDo(reg, s, w, act) && (s.workers[w].kind.Refund? ==> s.refundMux == Some(w))
    ensures var t := Do(reg, s, w, act);
      && OthersSame(s, t, w) && MuxOk(s, t, w)
      && (w in t.workers ==>
            && TodoShrinks(s, t, w) && (t.workers[w].kind.Refund? ==> t.refundMux == s.refundMux)
            && (t.workers[w].phase == Sent ==> t.workers[w].todo != [] && HeadTarget(t, w) in reg))
  {
    match act {
      case Report(msg) => ReportMoves(s, w, msg);
      case Commit => CommitMoves(s, w);
      case _ =>
    }
  }

  lemma ReportMoves(s: State, w: int, msg: string)
    requires At(s, w, Failed) && (s.workers[w].kind.Refund? ==> s.refundMux == Some(w))
    ensures var t := DoReport(s, w, msg);
      && OthersSame(s, t, w) && MuxOk(s, t, w)
      && (w in t.workers ==> TodoShrinks(s, t, w) && !t.workers[w].kind.Refund? && t.workers[w].phase == Ready)
  {
  }

  lemma CommitMoves(s: State, w: int)
    requires At(s, w, Settled)
    ensures var t := DoCommit(s, w);
      && OthersSame(s, t, w) && t.refundMux == s.refundMux
      && (w in t.workers ==> TodoShrinks(s, t, w) && t.workers[w].phase == Ready)
  {
  }

  lemma WorkSound(reg: Registry, s: State, t: State, w: int, act: Action)
    requires WorkersSound(reg, s) && CanDo(reg, s, w, act) && t == Do(reg, s, w, act) && Extends(s, t)
    ensures WorkersSound(reg, t)
  {
    assert WorkerSound(reg, s, w);
    WorkMoves(reg, s, w, act);
    if w in t.workers {
      MovedSound(reg, s, t, w);
    }
    OthersSound(reg, s, t, w);
  }

  lemma StepWorkers(reg: Registry, s: State, e: Event, t: State)
    requires RowsSound(reg, s) && WorkersSound(reg, s) && KeysOk(s) && Extends(s, t)
    requires Enabled(reg, s, e) && t == Step(reg, s, e)
    ensures WorkersSound(reg, t)
  {
    match e {
      case Deliver(rhash, w) => DeliverSound(reg, s, t, rhash, w);
      case StartRunUser(w, userId, rows) => StartRunUserSound(reg, s, t, w, userId, rows);
      case StartRefund(w, userKey, rows) => StartRefundSound(reg, s, t, w, userKey, rows);
      case Work(w, act) => WorkSound(reg, s, t, w, act);
      case _ => NobodySound(reg, s, t);
    }
  }

  // ------------------------------------------------ answers

  lemma AnswersStay(s: State, t: State)
    requires AnswersSound(s) && Extends(s, t) && t.answers.Keys <= s.answers.Keys
    requires forall h :: h in t.answers ==> t.answers[h] == s.answers[h]
    ensures AnswersSound(t)
  {
    forall h | h in t.answers ensures AnswerSound(t, t.answers[h]) {
      assert AnswerSound(s, s.answers[h]);
    }
  }

  lemma LoadSound(reg: Registry, s: State, t: State, h: int, id: int, payReq: string)
    requires RowsSound(reg, s) && AnswersSound(s) && id in s.spays && Answered(reg, s.spays[id], payReq).Some?
    requires t == s.(answers := s.answers[h := Answered(reg, s.spays[id], payReq).value])
    ensures AnswersSound(t)
  {
    assert RowSound(reg, s, id);
    forall g | g in t.answers ensures AnswerSound(t, t.answers[g]) {
      if g != h { assert AnswerSound(s, s.answers[g]); }
    }
  }

  lemma StepAnswers(reg: Registry, s: State, e: Event, t: State)
    requires RowsSound(reg, s) && AnswersSound(s) && Extends(s, t)
    requires Enabled(reg, s, e) && t == Step(reg, s, e)
    ensures AnswersSound(t)
  {
    match e {
      case LoadAnswer(h, id, payReq) => LoadSound(reg, s, t, h, id, payReq);
      case Work(w, act) => WorkAnswers(reg, s, w, act); AnswersStay(s, t);
      case _ => AnswersStay(s, t);
    }
  }

  lemma WorkAnswers(reg: Registry, s: State, w: int, act: Action)
    requires CanDo(reg, s, w, act)
    ensures Do(reg, s, w, act).answers == s.answers
  {
  }

  // ------------------------------------------------ the steps that move money

  lemma CreateSound(reg: Registry, s: State, e: Event, t: State)
    requires RowsSound(reg, s) && KeysOk(s) && Enabled(reg, s, e) && e.Create? && t == Step(reg, s, e)
    ensures RowsSound(reg, t) && KeysOk(t) && Extends(s, t)
  {
    var r := NewSpay(e.id, e.userId, e.userInvoice, reg[e.userInvoice], e.servInvoice, reg[e.servInvoice].paymentHash);
    NewRows(reg, s, t, e.id, r);
    CreateKeys(s, t, e.id, r);
  }

  lemma NewRows(reg: Registry, s: State, t: State, id: int, r: Spay)
    requires RowsSound(reg, s) && KeysOk(s) && id !in s.spays && t == s.(spays := s.spays[id := r])
    requires r.id == id && r.status == PayINIT && FixedOk(reg, r)
    ensures RowsSound(reg, t)
  {
    forall i | i in t.spays ensures RowSound(reg, t, i) {
      if i != id {
        assert RowSound(reg, s, i);
      } else {
        assert id !in t.payeePaid && Refunds(t, id) == [];
      }
    }
  }

  lemma PayServerSound(reg: Registry, s: State, e: Event, t: State)
    requires RowsSound(reg, s) && KeysOk(s) && Enabled(reg, s, e) && e.PayServer? && t == Step(reg, s, e)
    ensures RowsSound(reg, t) && KeysOk(t) && Extends(s, t)
  {
    PaidServer(reg, s, e, t);
    ReceivedKeys(s, t, e.id);
    forall i | i in t.spays ensures RowSound(reg, t, i) {
      assert RowSound(reg, s, i);
    }
  }

  lemma SettleSound(reg: Registry, s: State, t: State, w: int)
    requires RowsSound(reg, s) && KeysOk(s) && CanSettle(reg, s, w) && t == DoSettle(reg, s, w)
    requires HeldSound(s, Head(s, w))
    ensures RowsSound(reg, t) && KeysOk(t) && Extends(s, t)
  {
    forall i | i in t.spays ensures RowSound(reg, t, i) {
      assert RowSound(reg, s, i);
    }
    SettleKeys(reg, s, t, w);
  }

  lemma SettleKeys(reg: Registry, s: State, t: State, w: int)
    requires KeysOk(s) && CanSettle(reg, s, w) && t == DoSettle(reg, s, w) && Head(s, w).id in s.spays
    ensures KeysOk(t)
  {
    HashesOk(s, t);
  }

  lemma StepRows(reg: Registry, s: State, e: Event, t: State)
    requires Sound(reg, s) && Enabled(reg, s, e) && t == Step(reg, s, e)
    ensures RowsSound(reg, t) && KeysOk(t) && Extends(s, t)
  {
    if Quiescent(e) {
      StepPlain(reg, s, e, t);
      PlainRows(reg, s, t);
      PlainKeys(s, t);
    } else if e.Create? {
      CreateSound(reg, s, e, t);
    } else if e.PayServer? {
      PayServerSound(reg, s, e, t);
    } else {
      assert WorkerSound(reg, s, e.w) && HeldSound(s, s.workers[e.w].todo[0]);
      SettleSound(reg, s, t, e.w);
    }
  }

  /** Every step keeps it. */
  lemma StepSound(reg: Registry, s: State, e: Event, t: State)
    requires Sound(reg, s) && Enabled(reg, s, e) && t == Step(reg, s, e)
    ensures Sound(reg, t) && Extends(s, t)
  {
    StepRows(reg, s, e, t);
    StepWorkers(reg, s, e, t);
    StepAnswers(reg, s, e, t);
  }

  lemma LastSound(env: Env, s: State, n: nat, t: State) returns (m: State)
    requires n > 0 && Leads(env, s, n, t)
    ensures Leads(env, s, n - 1, m) && (Sound(env.reg, m) ==> Sound(env.reg, t))
  {
    var e;
    m, e :| Leads(env, s, n - 1, m) && Next(env, m, e, t);
    if Sound(env.reg, m) {
      StepSound(env.reg, m, e, t);
    }
  }

  lemma {:induction false} LeadsSound(env: Env, s: State, n: nat, t: State)
    requires Sound(env.reg, s) && Leads(env, s, n, t)
    ensures Sound(env.reg, t)
  {
    if n > 0 {
      var m := LastSound(env, s, n, t);
      LeadsSound(env, s, n - 1, m);
    }
  }

  /** It holds in every state of every run. */
  lemma ReachableSound(env: Env, n: nat, t: State)
    requires Reachable(env, n, t)
    ensures Sound(env.reg, t)
  {
    var clock :| clock > 0 && Leads(env, Init(clock), n, t);
    LeadsSound(env, Init(clock), n, t);
  }
}
