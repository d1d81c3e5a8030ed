/** The server's payment loops, run without interference, are runs of one
    goroutine of the protocol. */
module SpayRefinement {
  import opened Wrappers
  import opened Invoices
  import opened SpayProtocol
  import opened SpayServer

  /** Goroutine w takes these steps and nobody else moves. */
  ghost predicate Alone(reg: Registry, s: State, w: int, acts: seq<Action>, t: State)
    decreases acts
  {
    if acts == [] then s == t
    else CanDo(reg, s, w, acts[0]) && Alone(reg, Do(reg, s, w, acts[0]), w, acts[1..], t)
  }

  /** The steps behind one outcome for the row in hand. */
  function Script(reg: Registry, kind: Kind, r: Spay, o: Outcome): seq<Action> {
    match o
    case Offline => [Skip]
    case NotPaid(msg) => if Target(kind, r) in reg then [Send, Fail, Report(msg)] else [Send, Report(msg)]
    case Recorded => [Send, Settle, Commit]
    case Unrecorded => [Send, Settle, CommitErr]
  }

  function ScriptAll(reg: Registry, kind: Kind, rows: seq<Spay>, pay: (int, string) -> Outcome): seq<Action>
    decreases rows
  {
    if rows == [] then [Finish]
    else
      var o := Try(kind, rows[0], pay);
      Script(reg, kind, rows[0], o) + if GoesOn(kind, o) then ScriptAll(reg, kind, rows[1..], pay) else []
  }

  lemma {:induction false} AloneAppend(reg: Registry, s: State, w: int, a: seq<Action>, b: seq<Action>, t: State)
    returns (m: State)
    requires Alone(reg, s, w, a + b, t)
    ensures Alone(reg, s, w, a, m) && Alone(reg, m, w, b, t)
    decreases a
  {
    if a == [] {
      assert a + b == b;
      m := s;
    } else {
      assert (a + b)[0] == a[0] && (a + b)[1..] == a[1..] + b;
      m := AloneAppend(reg, Do(reg, s, w, a[0]), w, a[1..], b, t);
    }
  }

  lemma AloneOne(reg: Registry, s: State, w: int, x: Action, t: State)
    requires Alone(reg, s, w, [x], t)
    ensures CanDo(reg, s, w, x) && t == Do(reg, s, w, x)
  {
  }

  lemma AloneCons(reg: Registry, s: State, w: int, acts: seq<Action>, t: State) returns (m: State)
    requires acts != [] && Alone(reg, s, w, acts, t)
    ensures CanDo(reg, s, w, acts[0]) && m == Do(reg, s, w, acts[0]) && Alone(reg, m, w, acts[1..], t)
  {
    m := Do(reg, s, w, acts[0]);
  }

  /** The goroutine holds these rows, in this phase. */
  predicate Holds(s: State, w: int, kind: Kind, rows: seq<Spay>, phase: Phase) {
    w in s.workers && s.workers[w] == Worker(kind, rows, phase)
  }

  lemma SendDoes(reg: Registry, s: State, w: int, kind: Kind, rows: seq<Spay>)
    requires rows != [] && Holds(s, w, kind, rows, Ready)
    ensures var t := Do(reg, s, w, Send);
      t.spays == s.spays && Holds(t, w, kind, rows, if Target(kind, rows[0]) in reg then Sent else Failed)
  {
  }

  lemma SettleDoes(reg: Registry, s: State, w: int, kind: Kind, rows: seq<Spay>)
    requires rows != [] && Holds(s, w, kind, rows, Sent) && CanDo(reg, s, w, Settle)
    ensures var t := Do(reg, s, w, Settle); t.spays == s.spays && Holds(t, w, kind, rows, Settled)
  {
  }

  lemma CommitDoes(s: State, w: int, kind: Kind, rows: seq<Spay>)
    requires rows != [] && Holds(s, w, kind, rows, Settled)
    ensures var t := DoCommit(s, w);
      && t.spays == UpdateRow(s.spays, rows[0].id, PaidPatch(kind))
      && (if kind == Monitor then w !in t.workers else Holds(t, w, kind, rows[1..], Ready))
  {
  }

  lemma PaidScript(reg: Registry, s: State, w: int, kind: Kind, rows: seq<Spay>, last: Action, t: State)
    returns (m: State)
    requires rows != [] && Holds(s, w, kind, rows, Ready) && Alone(reg, s, w, [Send, Settle, last], t)
    ensures m.spays == s.spays && Holds(m, w, kind, rows, Settled)
    ensures CanDo(reg, m, w, last) && t == Do(reg, m, w, last)
  {
    var m1 := AloneCons(reg, s, w, [Send, Settle, last], t);
    assert [Send, Settle, last][1..] == [Settle, last];
    SendDoes(reg, s, w, kind, rows);
    m := AloneCons(reg, m1, w, [Settle, last], t);
    assert [Settle, last][1..] == [last];
    SettleDoes(reg, m1, w, kind, rows);
    AloneOne(reg, m, w, last, t);
  }

  lemma NotPaidScript(reg: Registry, s: State, w: int, kind: Kind, rows: seq<Spay>, msg: string, t: State)
    requires rows != [] && Holds(s, w, kind, rows, Ready)
    requires Alone(reg, s, w, Script(reg, kind, rows[0], NotPaid(msg)), t)
    ensures t.spays == FailedTable(kind, s.spays, rows[0], msg)
    ensures if kind == RunUser then Holds(t, w, kind, rows[1..], Ready) else w !in t.workers
  {
    var acts := Script(reg, kind, rows[0], NotPaid(msg));
    var m := AloneCons(reg, s, w, acts, t);
    SendDoes(reg, s, w, kind, rows);
    if Target(kind, rows[0]) in reg {
      assert acts[1..] == [Fail, Report(msg)];
      var m' := AloneCons(reg, m, w, [Fail, Report(msg)], t);
      assert [Fail, Report(msg)][1..] == [Report(msg)];
      FailDoes(reg, m, w, kind, rows);
      ReportEnds(reg, m', w, kind, rows, msg, t);
    } else {
      assert acts[1..] == [Report(msg)];
      ReportEnds(reg, m, w, kind, rows, msg, t);
    }
  }

  lemma FailDoes(reg: Registry, s: State, w: int, kind: Kind, rows: seq<Spay>)
    requires rows != [] && Holds(s, w, kind, rows, Sent)
    ensures var t := Do(reg, s, w, Fail); t.spays == s.spays && Holds(t, w, kind, rows, Failed)
  {
  }

  lemma ReportEnds(reg: Registry, s: State, w: int, kind: Kind, rows: seq<Spay>, msg: string, t: State)
    requires rows != [] && Holds(s, w, kind, rows, Failed) && Alone(reg, s, w, [Report(msg)], t)
    ensures t.spays == FailedTable(kind, s.spays, rows[0], msg)
    ensures if kind == RunUser then Holds(t, w, kind, rows[1..], Ready) else w !in t.workers
  {
  }

  /** One row: the table is left as the outcome says, and the goroutine goes on
      to its next row if and only if the loop does; otherwise it is gone. */
  lemma RowScript(reg: Registry, s: State, w: int, kind: Kind, rows: seq<Spay>, o: Outcome, t: State)
    requires rows != [] && Holds(s, w, kind, rows, Ready)
    requires Alone(reg, s, w, Script(reg, kind, rows[0], o), t)
    ensures t.spays == AfterOutcome(kind, s.spays, rows[0], o)
    ensures w in t.workers <==> GoesOn(kind, o)
    ensures GoesOn(kind, o) ==> Holds(t, w, kind, rows[1..], Ready)
  {
    match o {
      case Offline => AloneOne(reg, s, w, Skip, t);
      case NotPaid(msg) => NotPaidScript(reg, s, w, kind, rows, msg, t);
      case Recorded =>
        var m := PaidScript(reg, s, w, kind, rows, Commit, t);
        CommitDoes(m, w, kind, rows);
      case Unrecorded =>
        var m := PaidScript(reg, s, w, kind, rows, CommitErr, t);
    }
  }

  /** The whole loop: the protocol's goroutine leaves the table that the method
      of the server computes. */
  lemma {:induction false} LoopRefines(reg: Registry, s: State, w: int, kind: Kind, rows: seq<Spay>,
                                       pay: (int, string) -> Outcome, t: State)
    requires Holds(s, w, kind, rows, Ready)
    requires Alone(reg, s, w, ScriptAll(reg, kind, rows, pay), t)
    ensures t.spays == PayAll(kind, s.spays, rows, pay)
    decreases rows
  {
    if rows == [] {
      AloneOne(reg, s, w, Finish, t);
    } else {
      var o := Try(kind, rows[0], pay);
      var rest := if GoesOn(kind, o) then ScriptAll(reg, kind, rows[1..], pay) else [];
      var m := AloneAppend(reg, s, w, Script(reg, kind, rows[0], o), rest, t);
      RowScript(reg, s, w, kind, rows, o, m);
      if GoesOn(kind, o) {
        LoopRefines(reg, m, w, kind, rows[1..], pay, t);
      }
    }
  }

  /** A GETINVOICE_RES that is handled without interference leaves the table that the
      method of the server computes. */
  lemma AnswerRefines(reg: Registry, s: State, h: int, id: int, payReq: string)
    requires Enabled(reg, s, LoadAnswer(h, id, payReq)) && s.spays[id].id == id
    ensures var m := Step(reg, s, LoadAnswer(h, id, payReq));
      && Enabled(reg, m, SaveAnswer(h))
      && Step(reg, m, SaveAnswer(h)) == s.(spays := s.spays[id := Answered(reg, s.spays[id], payReq).value])
  {
    var m := Step(reg, s, LoadAnswer(h, id, payReq));
    assert m.answers - {h} == s.answers;
  }

  /** The monitor's step for a settled invoice leaves the table that its handler
      computes, and hands the row it has paid up to the payout goroutine. */
  lemma DeliverRefines(s: State, rhash: string, w: int)
    requires rhash in s.received && w !in s.workers
    ensures var t, found := DoDeliver(s, rhash, w), ByHash(s.spays, rhash);
      && t.spays == AfterSettled(s.spays, rhash, s.received[rhash])
      && (w in t.workers <==> found.Some? && s.spays[found.value].status == PayINIT)
      && (w in t.workers ==> t.workers[w] == Worker(Monitor, [t.spays[found.value]], Ready))
  {
  }
}
