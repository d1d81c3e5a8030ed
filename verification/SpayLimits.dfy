/** Where the guarantees of the agency payment end: each assumption of the
    theorems is needed, shown by a run without it. */
module SpayLimits {
  import opened Wrappers
  import opened Tables
  import opened Invoices
  import opened SpayProtocol
  import opened SpayInvariant
  import opened SpayTheorems
  import opened SpayLedger

  // ------------------------------------------------------------ a small world

  /** Requests "u" (the payee's), "v" (the server's), "p" and "q" (the payer's),
      for ten units of asset 1, and "x", the payer's for ten of asset 2.  The
      payer's are made when the server's settles, and run out at `late`. */
  function World(timestamp: int, expiry: int, settleDate: int, late: int): Registry {
    map["u" := Decoded("hu", 1, 10, 0, timestamp, expiry),
        "v" := AddInvoice(1, 10, expiry, "hv", settleDate),
        "p" := Decoded("hp", 1, 10, 0, settleDate, late - settleDate),
        "q" := Decoded("hq", 1, 10, 0, settleDate, late - settleDate),
        "x" := Decoded("hx", 2, 10, 0, settleDate, late - settleDate)]
  }

  ghost predicate InWorld(reg: Registry, timestamp: int, expiry: int, settleDate: int, late: int) {
    && ValidRegistry(reg) && "u" in reg && "v" in reg && "p" in reg && "q" in reg && "x" in reg
    && reg["u"] == Decoded("hu", 1, 10, 0, timestamp, expiry)
    && reg["v"] == AddInvoice(1, 10, expiry, "hv", settleDate)
    && reg["p"] == Decoded("hp", 1, 10, 0, settleDate, late - settleDate)
    && reg["q"] == Decoded("hq", 1, 10, 0, settleDate, late - settleDate)
    && reg["x"] == Decoded("hx", 2, 10, 0, settleDate, late - settleDate)
  }

  lemma WorldOk(timestamp: int, expiry: int, settleDate: int, late: int)
    requires expiry >= 0 && late >= settleDate
    ensures InWorld(World(timestamp, expiry, settleDate, late), timestamp, expiry, settleDate, late)
  {
  }

  const FRESH_ROW: Spay := Spay(1, 7, "u", "v", "hv", "", 0, PayINIT, "", 0, "", 1, 10)

  function OwedRow(expire: int, payerInvoice: string): Spay {
    FRESH_ROW.(payerAddr := "c", expire := expire, status := UserPayed, payerInvoice := payerInvoice)
  }

  /** The payer has paid, the monitor has noticed, and its goroutine is about to
      pay the payee. */
  function Owed(clock: int, expiry: int): State {
    var row := OwedRow(clock + expiry, "");
    State(clock, map[1 := row], map[1 := Worker(Monitor, [row], Ready)], None, map[],
          map["hv" := Settlement(clock, expiry, "c")], {}, map[], {}, map[], {}, map[1 := 1], map[1 := 10])
  }

  /** t is reached from s in some number of steps. */
  ghost predicate Reaches(env: Env, s: State, t: State) {
    exists n: nat :: Leads(env, s, n, t)
  }

  lemma Extend(env: Env, s: State, m: State, e: Event, t: State)
    requires Reaches(env, s, m) && Next(env, m, e, t)
    ensures Reaches(env, s, t)
  {
    var n: nat :| Leads(env, s, n, m);
    assert Leads(env, s, n + 1, t);
  }

  lemma Start(env: Env, s: State)
    ensures Reaches(env, s, s)
  {
    assert Leads(env, s, 0, s);
  }

  lemma Occurs(env: Env, clock: int, t: State) returns (n: nat)
    requires clock > 0 && Reaches(env, Init(clock), t)
    ensures Reachable(env, n, t)
  {
    n :| Leads(env, Init(clock), n, t);
  }

  /** The assumptions of the run hold in state t. */
  ghost predicate Fine(env: Env, t: State) {
    && (env.prompt ==> Prompt(t, env.delay))
    && (env.kept ==> Kept(t))
  }

  lemma ReachReceived(env: Env, timestamp: int, expiry: int, clock: int, late: int) returns (t: State)
    requires InWorld(env.reg, timestamp, expiry, clock, late) && clock > 0 && expiry >= 0
    ensures t == Init(clock).(spays := map[1 := FRESH_ROW], received := map["hv" := Settlement(clock, expiry, "c")],
                              cash := map[1 := 10])
    ensures Reaches(env, Init(clock), t)
  {
    var s0 := Init(clock);
    var s1 := s0.(spays := map[1 := FRESH_ROW]);
    t := s1.(received := map["hv" := Settlement(clock, expiry, "c")], cash := map[1 := 10]);
    Start(env, s0);
    assert Next(env, s0, Create(1, 7, "u", "v"), s1);
    Extend(env, s0, s0, Create(1, 7, "u", "v"), s1);
    assert Next(env, s1, PayServer(1, "c"), t);
    Extend(env, s0, s1, PayServer(1, "c"), t);
  }

  lemma ReachOwed(env: Env, timestamp: int, expiry: int, clock: int, late: int)
    requires InWorld(env.reg, timestamp, expiry, clock, late) && clock > 0 && expiry >= 0
    ensures Reaches(env, Init(clock), Owed(clock, expiry))
  {
    var s2 := ReachReceived(env, timestamp, expiry, clock, late);
    assert ByHash(s2.spays, "hv") == Some(1) by {
      var ids := set i | i in s2.spays && s2.spays[i].siPayHash == "hv";
      assert s2.spays[1].siPayHash == "hv";
      assert ids == {1};
    }
    assert Next(env, s2, Deliver("hv", 1), Owed(clock, expiry));
    Extend(env, Init(clock), s2, Deliver("hv", 1), Owed(clock, expiry));
  }

  lemma Wait(env: Env, s: State, m: State, secs: nat)
    requires Reaches(env, s, m) && Fine(env, m.(clock := m.clock + secs))
    ensures Reaches(env, s, m.(clock := m.clock + secs))
  {
    Extend(env, s, m, Tick(secs), m.(clock := m.clock + secs));
  }

  lemma Act(env: Env, s: State, m: State, w: int, act: Action, t: State)
    requires Reaches(env, s, m) && CanDo(env.reg, m, w, act) && t == Do(env.reg, m, w, act) && Fine(env, t)
    ensures Reaches(env, s, t)
  {
    Extend(env, s, m, Work(w, act), t);
  }

  /** A handler of GETINVOICE_RES loads the row and passes its checks. */
  lemma Load(env: Env, s: State, m: State, payReq: string, t: State)
    requires Reaches(env, s, m) && Fine(env, m) && m.answers == map[] && 1 in m.spays && m.spays[1].amt == 10
    requires payReq in env.reg && InvoiceAmt(env.reg[payReq]) == 10
    requires env.sameAsset ==> SameAsset(env.reg, m, LoadAnswer(1, 1, payReq))
    requires t == m.(answers := map[1 := m.spays[1].(payerInvoice := payReq)])
    ensures Reaches(env, s, t)
  {
    Extend(env, s, m, LoadAnswer(1, 1, payReq), t);
  }

  lemma Save(env: Env, s: State, m: State, a: Spay, t: State)
    requires Reaches(env, s, m) && m.answers == map[1 := a] && a.id == 1
    requires env.serial ==> Serial(m, SaveAnswer(1))
    requires t == m.(answers := map[], spays := m.spays[1 := a]) && Fine(env, t)
    ensures Reaches(env, s, t)
  {
    assert m.answers - {1} == map[];
    Extend(env, s, m, SaveAnswer(1), t);
  }

  /** The payer answers GETINVOICE. */
  lemma Answer(env: Env, s: State, m: State, payReq: string, t: State)
    requires Reaches(env, s, m) && Fine(env, m) && m.answers == map[]
    requires 1 in m.spays && m.spays[1].id == 1 && m.spays[1].amt == 10 && m.spays[1].userInvoice in env.reg
    requires payReq in env.reg && InvoiceAmt(env.reg[payReq]) == 10
    requires env.sameAsset ==> env.reg[payReq].assetId == env.reg[m.spays[1].userInvoice].assetId
    requires t == m.(spays := m.spays[1 := m.spays[1].(payerInvoice := payReq)]) && Fine(env, t)
    ensures Reaches(env, s, t)
  {
    var a := m.spays[1].(payerInvoice := payReq);
    var l := m.(answers := map[1 := a]);
    Load(env, s, m, payReq, l);
    Save(env, s, l, a, t);
  }

  /** t is m after worker w has paid row back. */
  predicate PaidBack(reg: Registry, m: State, w: int, row: Spay, t: State) {
    && row.payerInvoice in reg
    && t == m.(workers := m.workers[w := Worker(Refund(""), [row], Settled)], refundMux := Some(w),
               refunds := m.refunds[1 := Refunds(m, 1) + [row.payerInvoice]],
               paid := m.paid + {row.payerInvoice},
               cash := AddCash(m, reg[row.payerInvoice].assetId, -Value(reg[row.payerInvoice])))
  }

  /** refund selects the one row and pays it. */
  lemma PayBack(env: Env, s: State, m: State, w: int, row: Spay) returns (t: State)
    requires Reaches(env, s, m) && Fine(env, m) && env.delay >= 0
    requires m.spays == map[1 := row] && row.id == 1 && Refundable(row, "", m.clock)
    requires m.refundMux == None && w !in m.workers
    requires var p := row.payerInvoice;
      p in env.reg && p !in m.paid && m.clock <= Deadline(env.reg[p])
    ensures Reaches(env, s, t) && PaidBack(env.reg, m, w, row, t)
  {
    var m2 := PayBackSent(env, s, m, w, row);
    t := SettleRefund(env, s, m2, w, row);
    SentThenSettled(env.reg, m, w, row, m2, t);
  }

  lemma SentThenSettled(reg: Registry, m: State, w: int, row: Spay, m2: State, t: State)
    requires m2 == m.(workers := m.workers[w := Worker(Refund(""), [row], Sent)], refundMux := Some(w))
    requires PaidBack(reg, m2, w, row, t)
    ensures PaidBack(reg, m, w, row, t)
  {
  }

  lemma SettleRefund(env: Env, s: State, m: State, w: int, row: Spay) returns (t: State)
    requires Reaches(env, s, m) && Fine(env, m) && env.delay >= 0 && row.id == 1 && m.refundMux == Some(w)
    requires w in m.workers && m.workers[w] == Worker(Refund(""), [row], Sent)
    requires var p := row.payerInvoice; p in env.reg && p !in m.paid && m.clock <= Deadline(env.reg[p])
    ensures Reaches(env, s, t) && PaidBack(env.reg, m, w, row, t)
  {
    t := SettleIt(env, s, m, w, Refund(""), row);
  }

  lemma PayBackSent(env: Env, s: State, m: State, w: int, row: Spay) returns (t: State)
    requires Reaches(env, s, m) && Fine(env, m)
    requires m.spays == map[1 := row] && row.id == 1 && Refundable(row, "", m.clock)
    requires m.refundMux == None && w !in m.workers && row.payerInvoice in env.reg
    ensures Reaches(env, s, t) && Fine(env, t)
    ensures t == m.(workers := m.workers[w := Worker(Refund(""), [row], Sent)], refundMux := Some(w))
  {
    var m1 := m.(workers := m.workers[w := Worker(Refund(""), [row], Ready)], refundMux := Some(w));
    Select(env, s, m, w, row, m1);
    t := m1.(workers := m1.workers[w := Worker(Refund(""), [row], Sent)]);
    Act(env, s, m1, w, Send, t);
  }

  lemma Select(env: Env, s: State, m: State, w: int, row: Spay, t: State)
    requires Reaches(env, s, m) && Fine(env, m)
    requires m.spays == map[1 := row] && row.id == 1 && Refundable(row, "", m.clock)
    requires m.refundMux == None && w !in m.workers
    requires t == m.(workers := m.workers[w := Worker(Refund(""), [row], Ready)], refundMux := Some(w))
    ensures Reaches(env, s, t)
  {
    assert Selected([row], m.spays, r => Refundable(r, "", m.clock));
    Extend(env, s, m, StartRefund(w, "", [row]), t);
  }

  /** The monitor's goroutine calls Sendpayment. */
  lemma SendIt(env: Env, s: State, m: State, q: Spay) returns (t: State)
    requires Reaches(env, s, m) && Fine(env, m) && m.workers == map[1 := Worker(Monitor, [q], Ready)]
    requires q.userInvoice in env.reg
    ensures t == m.(workers := map[1 := Worker(Monitor, [q], Sent)]) && Reaches(env, s, t)
  {
    t := m.(workers := map[1 := Worker(Monitor, [q], Sent)]);
    SendStep(env.reg, m, q, t);
    Act(env, s, m, 1, Send, t);
  }

  lemma SendStep(reg: Registry, m: State, q: Spay, t: State)
    requires m.workers == map[1 := Worker(Monitor, [q], Ready)] && q.userInvoice in reg
    requires t == m.(workers := map[1 := Worker(Monitor, [q], Sent)])
    ensures CanDo(reg, m, 1, Send) && t == Do(reg, m, 1, Send)
  {
  }

  /** The network settles the payment of the one row in hand. */
  lemma SettleIt(env: Env, s: State, m: State, w: int, kind: Kind, q: Spay) returns (t: State)
    requires Reaches(env, s, m) && Fine(env, m) && env.delay >= 0
    requires w in m.workers && m.workers[w] == Worker(kind, [q], Sent)
    requires var p := Target(kind, q); p in env.reg && p !in m.paid && m.clock <= Deadline(env.reg[p])
    ensures Reaches(env, s, t)
    ensures t == m.(workers := m.workers[w := Worker(kind, [q], Settled)], paid := m.paid + {Target(kind, q)},
                    refunds := if kind.Refund? then m.refunds[q.id := Refunds(m, q.id) + [q.payerInvoice]] else m.refunds,
                    payeePaid := if kind.Refund? then m.payeePaid else m.payeePaid[q.id := m.clock],
                    unrecorded := if kind.Refund? then m.unrecorded else m.unrecorded + {q.id},
                    cash := t.cash)
    ensures var d := env.reg[Target(kind, q)]; t.cash == AddCash(m, d.assetId, -Value(d))
  {
    t := DoSettle(env.reg, m, w);
    Act(env, s, m, w, Settle, t);
  }

  // ------------------------------------------------ the timing is exact

  predicate Timing(reg: Registry, s: State, id: int, timestamp: int, expiry: int, settleDate: int) {
    && id in s.spays && s.spays[id].userInvoice in reg && s.spays[id].siPayHash in s.received
    && reg[s.spays[id].userInvoice].timestamp == timestamp && reg[s.spays[id].userInvoice].expiry == expiry
    && s.received[s.spays[id].siPayHash].settleDate == settleDate
  }

  /** Some run under all assumptions pays both sides of a spay with these times. */
  ghost predicate CanPayBoth(timestamp: int, expiry: int, settleDate: int, delay: int) {
    exists env: Env, n: nat, t: State, id: int ::
      && ValidRegistry(env.reg) && env.serial && env.prompt && env.kept && env.sameAsset && env.delay == delay
      && Reachable(env, n, t) && Timing(env.reg, t, id, timestamp, expiry, settleDate)
      && PaidToPayee(t, id) && PaidToPayer(t, id)
  }

  /** The payout goroutine has called Sendpayment, and waits for the last second
      of the user invoice. */
  lemma WaitedRun(env: Env, timestamp: int, expiry: int, settleDate: int, late: int) returns (t: State)
    requires InWorld(env.reg, timestamp, expiry, settleDate, late)
    requires expiry >= 0 && 0 < settleDate <= timestamp + expiry
    ensures Reaches(env, Init(settleDate), t)
    ensures t == Owed(settleDate, expiry).(
                   clock := timestamp + expiry,
                   workers := map[1 := Worker(Monitor, [OwedRow(settleDate + expiry, "")], Sent)])
  {
    ReachOwed(env, timestamp, expiry, settleDate, late);
    var s4 := SendIt(env, Init(settleDate), Owed(settleDate, expiry), OwedRow(settleDate + expiry, ""));
    t := s4.(clock := timestamp + expiry);
    Wait(env, Init(settleDate), s4, timestamp + expiry - settleDate);
  }

  /** The payee is paid in the last second of the user invoice. */
  lemma PayeePaidRun(env: Env, timestamp: int, expiry: int, settleDate: int) returns (t: State)
    requires InWorld(env.reg, timestamp, expiry, settleDate, timestamp + expiry + env.delay)
    requires expiry >= 0 && env.delay >= 0 && 0 < settleDate <= timestamp + expiry
    ensures Reaches(env, Init(settleDate), t)
    ensures t == Owed(settleDate, expiry).(
                   clock := timestamp + expiry, paid := {"u"}, payeePaid := map[1 := timestamp + expiry],
                   unrecorded := {1}, workers := t.workers, cash := t.cash)
    ensures 2 !in t.workers
  {
    var m := WaitedRun(env, timestamp, expiry, settleDate, timestamp + expiry + env.delay);
    t := SettleIt(env, Init(settleDate), m, 1, Monitor, OwedRow(settleDate + expiry, ""));
    FirstPaid(m, t, "u", 1, timestamp + expiry);
  }

  /** The records of a payment that is the first. */
  lemma FirstPaid(m: State, t: State, p: string, id: int, at: int)
    requires m.payeePaid == map[] && m.unrecorded == {} && m.paid == {}
    requires t.payeePaid == m.payeePaid[id := at] && t.unrecorded == m.unrecorded + {id} && t.paid == m.paid + {p}
    ensures t.payeePaid == map[id := at] && t.unrecorded == {id} && t.paid == {p}
  {
  }

  lemma BothPaidRun(timestamp: int, expiry: int, settleDate: int, delay: int)
    requires expiry >= 0 && settleDate > 0 && delay >= 0
    requires settleDate - timestamp < delay && settleDate <= timestamp + expiry
    ensures CanPayBoth(timestamp, expiry, settleDate, delay)
  {
    var last := timestamp + expiry;
    var reg := World(timestamp, expiry, settleDate, last + delay);
    WorldOk(timestamp, expiry, settleDate, last + delay);
    var env := Env(reg, delay, true, true, true, true);
    var s0 := Init(settleDate);
    var s6 := PayeePaidRun(env, timestamp, expiry, settleDate);
    var s7 := s6.(clock := last + delay);
    Wait(env, s0, s6, delay);
    var t := RefundedToo(env, s0, s7, OwedRow(settleDate + expiry, ""));
    var n := Occurs(env, settleDate, t);
    assert Timing(env.reg, t, 1, timestamp, expiry, settleDate);
  }

  /** The payer answers and is paid back. */
  lemma RefundedToo(env: Env, s: State, m: State, row: Spay) returns (t: State)
    requires Reaches(env, s, m) && Fine(env, m) && env.delay >= 0 && m.refundLost == {}
    requires m.spays == map[1 := row] && row == OwedRow(row.expire, "") && row.expire < m.clock
    requires m.answers == map[] && m.refundMux == None && 2 !in m.workers && "p" !in m.paid
    requires "p" in env.reg && "u" in env.reg && InvoiceAmt(env.reg["p"]) == 10
    requires env.reg["p"].assetId == env.reg["u"].assetId && m.clock <= Deadline(env.reg["p"])
    ensures Reaches(env, s, t)
    ensures t.payeePaid == m.payeePaid && PaidToPayer(t, 1) && t.received == m.received
    ensures 1 in t.spays && t.spays[1].userInvoice == "u" && t.spays[1].siPayHash == "hv"
  {
    var m' := m.(spays := map[1 := OwedRow(row.expire, "p")]);
    AnsweredToo(env, s, m, row, m');
    t := PayBack(env, s, m', 2, OwedRow(row.expire, "p"));
  }

  lemma AnsweredToo(env: Env, s: State, m: State, row: Spay, t: State)
    requires Reaches(env, s, m) && Fine(env, m) && m.refundLost == {} && m.answers == map[]
    requires m.spays == map[1 := row] && row == OwedRow(row.expire, "")
    requires "p" in env.reg && "u" in env.reg && InvoiceAmt(env.reg["p"]) == 10
    requires env.reg["p"].assetId == env.reg["u"].assetId
    requires t == m.(spays := map[1 := OwedRow(row.expire, "p")])
    ensures Reaches(env, s, t) && Fine(env, t)
  {
    StillFine(env, m, t);
    Answer(env, s, m, "p", t);
  }

  lemma StillFine(env: Env, m: State, m': State)
    requires Fine(env, m) && m.refundLost == {} && m' == m.(spays := m'.spays)
    ensures Fine(env, m')
  {
  }

  /** A spay can be paid to both sides exactly when its server invoice settled
      less than the delay after the user invoice was made, and no later than the
      user invoice ran out. */
  lemma PaysBothIff(timestamp: int, expiry: int, settleDate: int, delay: int)
    requires expiry >= 0 && settleDate > 0 && delay >= 0
    ensures CanPayBoth(timestamp, expiry, settleDate, delay)
       <==> settleDate - timestamp < delay && settleDate <= timestamp + expiry
  {
    if settleDate - timestamp < delay && settleDate <= timestamp + expiry {
      BothPaidRun(timestamp, expiry, settleDate, delay);
    } else if CanPayBoth(timestamp, expiry, settleDate, delay) {
      var env: Env, n: nat, t: State, id: int :|
        && ValidRegistry(env.reg) && env.serial && env.prompt && env.kept && env.sameAsset && env.delay == delay
        && Reachable(env, n, t) && Timing(env.reg, t, id, timestamp, expiry, settleDate)
        && PaidToPayee(t, id) && PaidToPayer(t, id);
      NeverBoth(env, n, t, id);
      assert false;
    }
  }

  /** The payout goroutine writes PayEnd and returns. */
  lemma Recorded(env: Env, s: State, m: State, q: Spay) returns (t: State)
    requires Reaches(env, s, m) && Fine(env, m) && q.id == 1 && 1 in m.spays && m.refundLost == {}
    requires m.workers == map[1 := Worker(Monitor, [q], Settled)]
    ensures Reaches(env, s, t)
    ensures t == m.(workers := map[], spays := m.spays[1 := m.spays[1].(status := PayEnd)],
                    unrecorded := m.unrecorded - {1})
  {
    t := DoCommit(m, 1);
    assert m.workers - {1} == map[];
    Act(env, s, m, 1, Commit, t);
  }

  // -------------------------------------------- a stale whole-row Save

  lemma ReachLoaded(env: Env, settleDate: int, delay: nat) returns (t: State)
    requires settleDate == delay + 1 && InWorld(env.reg, 1, delay + 1, settleDate, settleDate + delay + 2)
    ensures Reaches(env, Init(settleDate), t)
    ensures t == Owed(settleDate, delay + 1).(answers := map[1 := OwedRow(settleDate + delay + 1, "p")])
  {
    var s3 := Owed(settleDate, delay + 1);
    ReachOwed(env, 1, delay + 1, settleDate, settleDate + delay + 2);
    t := s3.(answers := map[1 := OwedRow(settleDate + delay + 1, "p")]);
    Load(env, Init(settleDate), s3, "p", t);
  }

  /** A handler loads the row, and the payee is then paid and PayEnd written. */
  lemma LoadedThenPaid(env: Env, settleDate: int, delay: nat) returns (t: State)
    requires settleDate == delay + 1 && InWorld(env.reg, 1, delay + 1, settleDate, settleDate + delay + 2)
    requires env.delay == delay
    ensures Reaches(env, Init(settleDate), t)
    ensures t == Owed(settleDate, delay + 1).(
                   spays := map[1 := OwedRow(settleDate + delay + 1, "").(status := PayEnd)],
                   answers := map[1 := OwedRow(settleDate + delay + 1, "p")],
                   workers := map[], paid := {"u"}, payeePaid := map[1 := settleDate], cash := t.cash)
  {
    var s0, sp := Init(settleDate), OwedRow(settleDate + delay + 1, "");
    var s4 := ReachLoaded(env, settleDate, delay);
    var s5 := SendIt(env, s0, s4, sp);
    var s6 := SettleIt(env, s0, s5, 1, Monitor, sp);
    t := Recorded(env, s0, s6, sp);
    assert t.unrecorded == {} && t.paid == {"u"};
  }

  /** Without `serial` the theorem fails even for a covered spay whose payee
      payment is recorded at once: a GETINVOICE_RES that loaded the row before
      PayEnd was written puts UserPayed back, and refund then pays the payer. */
  lemma StaleSavePaysBoth(delay: nat)
    ensures exists env: Env, n: nat, t: State ::
      && ValidRegistry(env.reg) && !env.serial && env.prompt && env.kept && env.delay == delay
      && Reachable(env, n, t) && 1 in t.spays && Covered(env.reg, t, 1, delay)
      && PaidToPayee(t, 1) && PaidToPayer(t, 1)
  {
    var settleDate := delay + 1;
    var reg := World(1, delay + 1, settleDate, settleDate + delay + 2);
    WorldOk(1, delay + 1, settleDate, settleDate + delay + 2);
    var env := Env(reg, delay, false, true, true, true);
    var s0 := Init(settleDate);
    var s7 := LoadedThenPaid(env, settleDate, delay);
    var s9 := StaleRow(env, settleDate, delay, s7);
    var t := PayBack(env, s0, s9, 2, OwedRow(settleDate + delay + 1, "p"));
    var n := Occurs(env, settleDate, t);
  }

  /** The handler saves its copy, and Expire passes. */
  lemma StaleRow(env: Env, settleDate: int, delay: nat, m: State) returns (t: State)
    requires Reaches(env, Init(settleDate), m) && !env.serial && m.refundLost == {} && m.unrecorded == {}
    requires m.answers == map[1 := OwedRow(settleDate + delay + 1, "p")] && m.clock == settleDate
    requires m.spays.Keys == {1}
    ensures t == m.(answers := map[], spays := map[1 := OwedRow(settleDate + delay + 1, "p")],
                    clock := settleDate + delay + 2)
    ensures Reaches(env, Init(settleDate), t)
  {
    var stale := OwedRow(settleDate + delay + 1, "p");
    var s8 := m.(answers := map[], spays := map[1 := stale]);
    Save(env, Init(settleDate), m, stale, s8);
    t := s8.(clock := settleDate + delay + 2);
    Wait(env, Init(settleDate), s8, delay + 2);
  }

  // ---------------------------------- a lost write and a second invoice

  /** Expire has passed without a payment to the payee, and the payer answers. */
  lemma ReachAnswered(env: Env, payReq: string) returns (t: State)
    requires InWorld(env.reg, 1, 10, 1, 12) && env.delay == 0
    requires payReq == "p" || (payReq == "x" && !env.sameAsset)
    ensures Reaches(env, Init(1), t)
    ensures t == Owed(1, 10).(clock := 12, spays := map[1 := OwedRow(11, payReq)])
  {
    ReachOwed(env, 1, 10, 1, 12);
    var s4 := Owed(1, 10).(clock := 12);
    Wait(env, Init(1), Owed(1, 10), 11);
    t := s4.(spays := map[1 := OwedRow(11, payReq)]);
    Answer(env, Init(1), s4, payReq, t);
  }

  /** The payer is paid back, hands in another invoice, and the Refunded write fails. */
  lemma PaidThenLost(env: Env) returns (t: State)
    requires InWorld(env.reg, 1, 10, 1, 12) && env.delay == 0 && !env.kept
    ensures Reaches(env, Init(1), t)
    ensures t.spays == map[1 := OwedRow(11, "q")] && t.clock == 12 && t.refunds == map[1 := ["p"]]
    ensures t.refundMux == None && 3 !in t.workers && t.paid == {"p"} && t.unrecorded == {}
  {
    var s0, row := Init(1), OwedRow(11, "p");
    var s5 := ReachAnswered(env, "p");
    var s6 := PayBack(env, s0, s5, 2, row);
    t := WriteLost(env, s0, s6, row);
    assert [] + ["p"] == ["p"];
    assert t.workers.Keys == {1};
  }

  lemma WriteLost(env: Env, s: State, m: State, row: Spay) returns (t: State)
    requires Reaches(env, s, m) && Fine(env, m) && !env.kept && InWorld(env.reg, 1, 10, 1, 12)
    requires m.spays == map[1 := row] && row == OwedRow(11, "p") && m.answers == map[]
    requires 2 in m.workers && m.workers[2] == Worker(Refund(""), [row], Settled)
    ensures Reaches(env, s, t)
    ensures t == m.(spays := map[1 := OwedRow(11, "q")], workers := m.workers - {2}, refundMux := None,
                    refundLost := m.refundLost + {1})
  {
    var m' := m.(spays := map[1 := OwedRow(11, "q")]);
    Answer(env, s, m, "q", m');
    t := m'.(workers := m'.workers - {2}, refundMux := None, refundLost := m'.refundLost + {1});
    Act(env, s, m', 2, CommitErr, t);
  }

  /** Without `kept` a spay is refunded twice: the Refunded write fails after a
      settled refund, and the payer has meanwhile handed in another invoice. */
  lemma LostWriteRefundsTwice()
    ensures exists env: Env, n: nat, t: State ::
      && ValidRegistry(env.reg) && env.serial && env.prompt && !env.kept
      && Reachable(env, n, t) && 1 in t.spays && |Refunds(t, 1)| == 2
  {
    var env := Env(World(1, 10, 1, 12), 0, true, true, false, true);
    WorldOk(1, 10, 1, 12);
    var s := PaidThenLost(env);
    var t := PayBack(env, Init(1), s, 3, OwedRow(11, "q"));
    var n := Occurs(env, 1, t);
  }

  // ------------------------------------------------ a lost PayEnd

  lemma PayEndLost(env: Env, clock: int, delay: nat) returns (t: State)
    requires clock == delay + 1 && InWorld(env.reg, 1, delay + 1, clock, clock + delay + 2)
    requires env.delay == delay && !env.prompt
    ensures Reaches(env, Init(clock), t)
    ensures t == Owed(clock, delay + 1).(workers := map[], paid := {"u"}, payeePaid := map[1 := clock],
                                     unrecorded := {1}, cash := t.cash)
  {
    var s0, sp := Init(clock), OwedRow(clock + delay + 1, "");
    ReachOwed(env, 1, delay + 1, clock, clock + delay + 2);
    var s4 := SendIt(env, s0, Owed(clock, delay + 1), sp);
    var s5 := SettleIt(env, s0, s4, 1, Monitor, sp);
    t := s5.(workers := map[]);
    assert s5.workers - {1} == map[];
    Act(env, s0, s5, 1, CommitErr, t);
    assert t.paid == {"u"} && t.unrecorded == {1};
  }

  /** Without `prompt` both sides are paid however far apart the times are: the
      payee is paid at once, but PayEnd is never written. */
  lemma LostPayEndPaysBoth(delay: nat)
    ensures exists env: Env, n: nat, t: State ::
      && ValidRegistry(env.reg) && env.serial && !env.prompt && env.kept && env.delay == delay
      && Reachable(env, n, t) && 1 in t.spays && Covered(env.reg, t, 1, delay)
      && PaidToPayee(t, 1) && PaidToPayer(t, 1)
  {
    var clock := delay + 1;
    var env := Env(World(1, delay + 1, clock, clock + delay + 2), delay, true, false, true, true);
    WorldOk(1, delay + 1, clock, clock + delay + 2);
    var s0, sp := Init(clock), OwedRow(clock + delay + 1, "");
    var s6 := PayEndLost(env, clock, delay);
    var s7 := s6.(clock := clock + delay + 2);
    Wait(env, s0, s6, delay + 2);
    var t := RefundedToo(env, s0, s7, sp);
    var n := Occurs(env, clock, t);
  }

  // ------------------------------------------------ a foreign asset

  /** Without `sameAsset` an asset that was never received is paid out: the check
      of the payer's answer compares amounts only. */
  lemma ForeignAssetPaidOut()
    ensures exists env: Env, n: nat, t: State ::
      && ValidRegistry(env.reg) && env.serial && env.prompt && env.kept && !env.sameAsset && env.delay == 0
      && Reachable(env, n, t) && AllCovered(env, t) && Cash(t, 2) != Sum(OwedOf(t, 2))
  {
    var env := Env(World(1, 10, 1, 12), 0, true, true, true, false);
    WorldOk(1, 10, 1, 12);
    var s5 := ReachAnswered(env, "x");
    var t := PayBack(env, Init(1), s5, 2, OwedRow(11, "x"));
    var n := Occurs(env, 1, t);
    ForeignSum(t);
  }

  lemma ForeignSum(t: State)
    requires t.spays == map[1 := OwedRow(11, "x")]
    ensures Sum(OwedOf(t, 2)) == 0
  {
  }
}
