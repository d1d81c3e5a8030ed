/** The agency-payment half of the server: the spay table and the methods that
    work on it.  Payments and failing writes are oracles. */
module SpayServer {
  import opened Wrappers
  import opened Tables
  import opened Invoices
  import opened SpayProtocol
  import opened Replay

  /** What comes of trying to pay for one row: the payer is offline and the row
      is skipped, Sendpayment fails, or it succeeds and the status write does or
      does not. */
  datatype Outcome = Offline | NotPaid(msg: string) | Recorded | Unrecorded

  /** Whether the loop goes on to the next row. */
  predicate GoesOn(kind: Kind, o: Outcome) {
    o == Offline || (o == Recorded && kind != Monitor) || (o.NotPaid? && kind == RunUser)
  }

  /** What comes of one row: pay is asked about the row and the request. */
  function Try(kind: Kind, r: Spay, pay: (int, string) -> Outcome): Outcome {
    pay(r.id, Target(kind, r))
  }

  function AfterOutcome(kind: Kind, spays: map<int, Spay>, r: Spay, o: Outcome): map<int, Spay> {
    match o
    case NotPaid(msg) => FailedTable(kind, spays, r, msg)
    case Recorded => UpdateRow(spays, r.id, PaidPatch(kind))
    case _ => spays
  }

  /** The loops of runUserSpay and refund over the selected rows. */
  function PayAll(kind: Kind, spays: map<int, Spay>, rows: seq<Spay>, pay: (int, string) -> Outcome): map<int, Spay>
    decreases rows
  {
    if rows == [] then spays
    else
      var o := Try(kind, rows[0], pay);
      var after := AfterOutcome(kind, spays, rows[0], o);
      if GoesOn(kind, o) then PayAll(kind, after, rows[1..], pay) else after
  }

  class Server {
    var spays: map<int, Spay>

    constructor ()
      ensures spays == map[]
    {
      spays := map[];
    }

    /** Mirrors the user invoice with one of the same asset, amount and expiry.
        id is the key the database assigns; issued is what lnd returns for the
        new invoice, with its payment hash; saved tells whether the database takes
        the row.  When it does not, the invoice has been issued all the same. */
    method CreateSpay(reg: Registry, id: int, userId: int, userInvoice: string, issued: Option<(string, string)>,
                      saved: bool, now: int)
      returns (res: Result<Spay, string>, asked: Option<Decoded>)
      requires id !in spays
      modifies this
      ensures asked.Some? <==> userInvoice in reg && issued.Some?
      ensures asked.Some? ==>
        && asked.value.assetId == reg[userInvoice].assetId && asked.value.expiry == reg[userInvoice].expiry
        && asked.value == AddInvoice(reg[userInvoice].assetId, InvoiceAmt(reg[userInvoice]), reg[userInvoice].expiry,
                                     issued.value.1, now)
      ensures res.Ok? <==> asked.Some? && saved
      ensures res.Err? ==> spays == old(spays)
      ensures res.Ok? ==>
        && spays == old(spays)[id := res.value]
        && res.value.id == id && res.value.userId == userId && res.value.userInvoice == userInvoice
        && res.value.servInvoice == issued.value.0 && res.value.siPayHash == asked.value.paymentHash
        && res.value.status == PayINIT && res.value.payerAddr == res.value.payerInvoice == "" && res.value.expire == 0
        && res.value.assetId == reg[userInvoice].assetId && res.value.amt == InvoiceAmt(reg[userInvoice])
    {
      if userInvoice !in reg {
        return Err("DecodePayReq"), None;
      }
      var u := reg[userInvoice];
      var amt := u.amount;
      if u.assetId == 0 {
        amt := InvoiceAmt(u);
      }
      if issued.None? {
        return Err("AddInvoice"), None;
      }
      asked := Some(AddInvoice(u.assetId, amt, u.expiry, issued.value.1, now));
      var sy := NewSpay(id, userId, userInvoice, u, issued.value.0, issued.value.1);
      if !saved {
        return Err("Save"), asked;
      }
      spays := spays[id := sy];
      res := Ok(sy);
    }

    /** The handler of one invoice event; start is the row for the payout
        goroutine, if one is started. */
    method UpdateSpayByInvoice(rhash: string, state: InvoiceState, inv: Settlement, dbOk: bool)
      returns (start: Option<Spay>)
      modifies this
      ensures state == SETTLED && dbOk ==> spays == AfterSettled(old(spays), rhash, inv)
      ensures (state != SETTLED && state != CANCELED) || !dbOk ==> spays == old(spays)
      ensures start.Some? <==>
        && state == SETTLED && dbOk && ByHash(old(spays), rhash).Some?
        && old(spays)[ByHash(old(spays), rhash).value].status == PayINIT
      ensures start.Some? ==>
        var id := ByHash(old(spays), rhash).value;
        && id in old(spays) && old(spays)[id].siPayHash == rhash && start.value == spays[id]
        && PaidBy(old(spays)[id], inv, start.value)
      ensures state == CANCELED ==>
        forall id :: id in old(spays) ==>
          && id in spays
          && spays[id] == if dbOk && ByHash(old(spays), rhash) == Some(id) && old(spays)[id].status == PayINIT
                          then old(spays)[id].(status := Error, errMsg := "Invoice_CANCELED") else old(spays)[id]
    {
      start := None;
      var found := ByHash(spays, rhash);
      if found.None? {
        return;
      }
      var id := found.value;
      var sp := spays[id];
      if sp.status != PayINIT {
        return;
      }
      var p := Patch();
      if state == SETTLED {
        p := SettledPatch(inv);
      } else if state == CANCELED {
        p := Patch(status := Error, errMsg := "Invoice_CANCELED");
      } else {
        return;
      }
      if !dbOk {
        return;
      }
      sp := Updates(sp, p);
      spays := spays[id := sp];
      if sp.status == UserPayed {
        start := Some(sp);
      }
    }

    /** db.Find: the selected rows, in some order. */
    method Find(sel: Spay -> bool) returns (rows: seq<Spay>)
      requires forall id :: id in spays ==> spays[id].id == id
      ensures Selected(rows, spays, sel)
    {
      rows := [];
      var left := spays.Keys;
      while left != {}
        invariant left <= spays.Keys
        invariant forall k :: 0 <= k < |rows| ==>
                    rows[k].id in spays && rows[k].id !in left && spays[rows[k].id] == rows[k] && sel(rows[k])
        invariant forall i :: i in spays && i !in left && sel(spays[i]) ==> spays[i] in rows
        invariant forall j, k :: 0 <= j < k < |rows| ==> rows[j].id != rows[k].id
        decreases left
      {
        var i := First(left).value;
        if sel(spays[i]) {
          rows := rows + [spays[i]];
        }
        left := left - {i};
      }
    }

    method PayRows(kind: Kind, rows: seq<Spay>, pay: (int, string) -> Outcome)
      modifies this
      ensures spays == PayAll(kind, old(spays), rows, pay)
    {
      var k := 0;
      while k < |rows|
        invariant 0 <= k <= |rows|
        invariant PayAll(kind, spays, rows[k..], pay) == PayAll(kind, old(spays), rows, pay)
      {
        var r := rows[k];
        assert rows[k..][1..] == rows[k + 1..];
        var o := Try(kind, r, pay);
        spays := AfterOutcome(kind, spays, r, o);
        if !GoesOn(kind, o) {
          return;
        }
        k := k + 1;
      }
    }

    /** The payout goroutine that the monitor starts for a row. */
    method PayOut(row: Spay, pay: (int, string) -> Outcome)
      requires row.id in spays && spays[row.id].id == row.id
      modifies this
      ensures spays == if pay(row.id, row.userInvoice) == Recorded
                       then old(spays)[row.id := old(spays)[row.id].(status := PayEnd)] else old(spays)
    {
      PayRows(Monitor, [row], pay);
      assert [row][1..] == [];
    }

    /** Retries the payees of one user while their Expire has not come: every one of
        his rows that is UserPayed and whose Expire is ahead is tried. */
    method RunUserSpay(userId: int, now: int, pay: (int, string) -> Outcome) returns (rows: seq<Spay>)
      requires forall id :: id in spays ==> spays[id].id == id
      modifies this
      ensures forall r :: r in rows <==>
        r.id in old(spays) && old(spays)[r.id] == r && r.userId == userId && r.status == UserPayed && r.expire > now
      ensures spays == PayAll(RunUser, old(spays), rows, pay) && Tried(RunUser, old(spays), rows, pay, spays)
    {
      rows := Find(r => Payable(r, userId, now));
      AllTried(RunUser, spays, rows, pay);
      PayRows(RunUser, rows, pay);
    }

    /** Pays payers back once Expire has passed; with the empty key, everybody who is
        online, and with another, that payer only. */
    method RefundAll(userKey: string, online: bool, now: int, pay: (int, string) -> Outcome) returns (rows: seq<Spay>)
      requires forall id :: id in spays ==> spays[id].id == id
      modifies this
      ensures userKey != "" && !online ==> rows == [] && spays == old(spays)
      ensures userKey == "" || online ==> forall r :: r in rows <==>
        && r.id in old(spays) && old(spays)[r.id] == r && (userKey == "" || r.payerAddr == userKey)
        && r.status == UserPayed && r.expire < now && r.payerInvoice != ""
      ensures spays == PayAll(Refund(userKey), old(spays), rows, pay)
      ensures Tried(Refund(userKey), old(spays), rows, pay, spays)
      ensures userKey != "" ==> forall id :: id in old(spays) && old(spays)[id].payerAddr != userKey ==>
        id in spays && spays[id] == old(spays)[id]
    {
      rows := [];
      if userKey != "" && !online {
        return;
      }
      rows := Find(r => Refundable(r, userKey, now));
      AllTried(Refund(userKey), spays, rows, pay);
      PayRows(Refund(userKey), rows, pay);
    }

    /** The payer's answer to GETINVOICE. */
    method GetInvoiceRes(reg: Registry, id: int, payReq: string) returns (ok: bool)
      modifies this
      ensures ok <==> id in old(spays) && Answered(reg, old(spays)[id], payReq).Some?
      ensures spays == if ok then old(spays)[id := Answered(reg, old(spays)[id], payReq).value] else old(spays)
      ensures id in old(spays) ==>
        var r := old(spays)[id];
        if r.amt == 0 then
          && (ok <==> payReq in reg && r.userInvoice in reg && InvoiceAmt(reg[payReq]) == InvoiceAmt(reg[r.userInvoice]))
          && (ok ==> spays[id] == r.(amt := InvoiceAmt(reg[r.userInvoice]), assetId := reg[r.userInvoice].assetId,
                                     payerInvoice := payReq))
        else
          && (ok <==> payReq in reg && InvoiceAmt(reg[payReq]) == r.amt)
          && (ok ==> spays[id] == r.(payerInvoice := payReq))
    {
      if id !in spays || payReq !in reg {
        return false;
      }
      var spay := spays[id];
      var amt := InvoiceAmt(reg[payReq]);
      if spay.amt == 0 {
        if spay.userInvoice !in reg {
          return false;
        }
        var u := reg[spay.userInvoice];
        spay := spay.(amt := InvoiceAmt(u), assetId := u.assetId);
      }
      if amt != spay.amt {
        return false;
      }
      spays := spays[id := spay.(payerInvoice := payReq)];
      ok := true;
    }
  }

  // ------------------------------------------------ what the loops amount to

  /** What a payment attempt makes of its row: the final status if it was recorded,
      message and count if it failed, nothing if the payer was offline or the write
      was lost. */
  predicate Outcomes(kind: Kind, r: Spay, o: Outcome, t: Spay) {
    match o
    case Recorded => t == r.(status := if kind.Refund? then Refunded else PayEnd)
    case NotPaid(msg) =>
      t == r.(errMsg := if msg == "" then r.errMsg else msg,
              errTimes := if r.errTimes == -1 then -1 else r.errTimes + 1)
    case _ => t == r
  }

  /** The request that settles a row: the payee's for runUserSpay, the payer's for
      refund. */
  function Due(kind: Kind, r: Spay): string {
    match kind
    case Refund(_) => r.payerInvoice
    case _ => r.userInvoice
  }

  /** An outcome after which no further row is tried: a lost write, and for refund
      also a failed payment. */
  predicate Stops(kind: Kind, o: Outcome) {
    match o
    case Unrecorded => true
    case NotPaid(_) => kind.Refund?
    case _ => false
  }

  /** Row k is not reached. */
  ghost predicate Cut(kind: Kind, rows: seq<Spay>, pay: (int, string) -> Outcome, k: nat)
    requires k <= |rows|
  {
    exists j :: 0 <= j < k && Stops(kind, pay(rows[j].id, Due(kind, rows[j])))
  }

  /** Each selected row ends as its own attempt leaves it unless an earlier one cut
      the loop short, and every other row stays as it is. */
  ghost predicate Tried(kind: Kind, before: map<int, Spay>, rows: seq<Spay>, pay: (int, string) -> Outcome,
                        after: map<int, Spay>)
  {
    && after.Keys == before.Keys
    && (forall k :: 0 <= k < |rows| && rows[k].id in after ==>
          if Cut(kind, rows, pay, k) then after[rows[k].id] == rows[k]
          else Outcomes(kind, rows[k], pay(rows[k].id, Due(kind, rows[k])), after[rows[k].id]))
    && (forall id :: id in before && (forall k :: 0 <= k < |rows| ==> rows[k].id != id) ==> after[id] == before[id])
  }

  lemma {:induction false} PayAllElsewhere(kind: Kind, spays: map<int, Spay>, rows: seq<Spay>,
                                           pay: (int, string) -> Outcome, id: int)
    requires forall k :: 0 <= k < |rows| ==> rows[k].id != id
    ensures id in PayAll(kind, spays, rows, pay) <==> id in spays
    ensures id in spays ==> PayAll(kind, spays, rows, pay)[id] == spays[id]
    decreases rows
  {
    if rows != [] {
      PayAllElsewhere(kind, AfterOutcome(kind, spays, rows[0], Try(kind, rows[0], pay)), rows[1..], pay, id);
    }
  }

  lemma {:induction false} PayAllKeys(kind: Kind, spays: map<int, Spay>, rows: seq<Spay>, pay: (int, string) -> Outcome)
    ensures PayAll(kind, spays, rows, pay).Keys == spays.Keys
    decreases rows
  {
    if rows != [] {
      PayAllKeys(kind, AfterOutcome(kind, spays, rows[0], Try(kind, rows[0], pay)), rows[1..], pay);
    }
  }

  /** Every selected row ends as its own payment attempt leaves it, unless an earlier
      row cut the loop short: for runUserSpay that takes a lost write, for refund a
      lost write or a failed payment. */
  lemma {:induction false} PayAllRow(kind: Kind, spays: map<int, Spay>, rows: seq<Spay>, pay: (int, string) -> Outcome,
                                     k: nat)
    requires kind != Monitor && k < |rows| && rows[k].id in spays && spays[rows[k].id] == rows[k]
    requires forall i, j :: 0 <= i < j < |rows| ==> rows[i].id != rows[j].id
    ensures var after := PayAll(kind, spays, rows, pay);
      && rows[k].id in after
      && if Cut(kind, rows, pay, k) then after[rows[k].id] == rows[k]
         else Outcomes(kind, rows[k], pay(rows[k].id, Due(kind, rows[k])), after[rows[k].id])
    decreases rows
  {
    var id, o := rows[0].id, Try(kind, rows[0], pay);
    var after := AfterOutcome(kind, spays, rows[0], o);
    if k == 0 {
      PayAllElsewhere(kind, after, rows[1..], pay, id);
    } else {
      CutTail(kind, rows, pay, k);
      if GoesOn(kind, o) {
        PayAllRow(kind, after, rows[1..], pay, k - 1);
      }
    }
  }

  lemma CutTail(kind: Kind, rows: seq<Spay>, pay: (int, string) -> Outcome, k: nat)
    requires 0 < k <= |rows|
    ensures Cut(kind, rows, pay, k) <==>
      Stops(kind, pay(rows[0].id, Due(kind, rows[0]))) || Cut(kind, rows[1..], pay, k - 1)
  {
    if j :| 0 <= j < k - 1 && Stops(kind, pay(rows[1..][j].id, Due(kind, rows[1..][j]))) {
      assert rows[1..][j] == rows[j + 1];
    }
    if j :| 0 < j < k && Stops(kind, pay(rows[j].id, Due(kind, rows[j]))) {
      assert rows[1..][j - 1] == rows[j];
    }
  }

  lemma AllTried(kind: Kind, spays: map<int, Spay>, rows: seq<Spay>, pay: (int, string) -> Outcome)
    requires kind != Monitor
    requires forall k :: 0 <= k < |rows| ==> rows[k].id in spays && spays[rows[k].id] == rows[k]
    requires forall i, j :: 0 <= i < j < |rows| ==> rows[i].id != rows[j].id
    ensures Tried(kind, spays, rows, pay, PayAll(kind, spays, rows, pay))
  {
    PayAllKeys(kind, spays, rows, pay);
    forall k | 0 <= k < |rows|
      ensures var after := PayAll(kind, spays, rows, pay);
        if Cut(kind, rows, pay, k) then after[rows[k].id] == rows[k]
        else Outcomes(kind, rows[k], pay(rows[k].id, Due(kind, rows[k])), after[rows[k].id]) {
      PayAllRow(kind, spays, rows, pay, k);
    }
    forall id | id in spays && forall k :: 0 <= k < |rows| ==> rows[k].id != id
      ensures PayAll(kind, spays, rows, pay)[id] == spays[id] {
      PayAllElsewhere(kind, spays, rows, pay, id);
    }
  }

  // ------------------------------------------------ settled invoices, replayed

  datatype SettledEvent = SettledEvent(rhash: string, inv: Settlement)

  function OnSettled(spays: map<int, Spay>, e: SettledEvent): map<int, Spay> {
    AfterSettled(spays, e.rhash, e.inv)
  }

  lemma ByHashStable(spays: map<int, Spay>, e: SettledEvent, rhash: string)
    ensures ByHash(OnSettled(spays, e), rhash) == ByHash(spays, rhash)
    ensures OnSettled(spays, e).Keys == spays.Keys
  {
    var after := OnSettled(spays, e);
    assert (set i | i in after && after[i].siPayHash == rhash) == (set i | i in spays && spays[i].siPayHash == rhash);
  }

  /** The monitor's handler meets the conditions of the replay theorems, so the
      spay table is insensitive to duplicated events and to reconnects. */
  lemma SettledAbsorbing()
    ensures Absorbing(OnSettled)
  {
    forall s: map<int, Spay>, e: SettledEvent ensures OnSettled(OnSettled(s, e), e) == OnSettled(s, e) {
      ByHashStable(s, e, e.rhash);
    }
    forall s: map<int, Spay>, e: SettledEvent, e': SettledEvent | OnSettled(s, e) == s
      ensures OnSettled(OnSettled(s, e'), e) == OnSettled(s, e') {
      ByHashStable(s, e', e.rhash);
      match ByHash(s, e.rhash) {
        case None =>
        case Some(id) =>
          assert s[id].status != PayINIT;
      }
    }
  }

  /** What a settled invoice makes of its row: status, payer and Expire, and nothing
      else; an empty payer and a zero sum are not written. */
  predicate PaidBy(r: Spay, inv: Settlement, t: Spay) {
    t == r.(status := UserPayed,
            payerAddr := if inv.payerAddr == "" then r.payerAddr else inv.payerAddr,
            expire := if inv.settleDate + inv.expiry == 0 then r.expire else inv.settleDate + inv.expiry)
  }

  /** The first message about a payment hash. */
  function FirstFor(log: seq<SettledEvent>, rhash: string): Option<Settlement> {
    if log == [] then None
    else if log[0].rhash == rhash then Some(log[0].inv) else FirstFor(log[1..], rhash)
  }

  predicate HashesDiffer(spays: map<int, Spay>) {
    forall i, j :: i in spays && j in spays && spays[i].siPayHash == spays[j].siPayHash ==> i == j
  }

  lemma OnSettledRow(spays: map<int, Spay>, e: SettledEvent, id: int)
    requires HashesDiffer(spays) && id in spays
    ensures HashesDiffer(OnSettled(spays, e)) && id in OnSettled(spays, e)
    ensures OnSettled(spays, e)[id] == if spays[id].status == PayINIT && spays[id].siPayHash == e.rhash
                                       then Updates(spays[id], SettledPatch(e.inv)) else spays[id]
  {
    var ids := set i | i in spays && spays[i].siPayHash == e.rhash;
    if spays[id].siPayHash == e.rhash {
      assert id in ids;
    }
  }

  /** What any log does to a row: a row at PayINIT becomes UserPayed by the first
      message about its hash, if there is one, and nothing else changes. */
  lemma {:induction false} FirstDecides(spays: map<int, Spay>, log: seq<SettledEvent>, id: int)
    requires HashesDiffer(spays) && id in spays
    ensures var after, first := Apply(OnSettled, spays, log), FirstFor(log, spays[id].siPayHash);
      && id in after
      && if spays[id].status == PayINIT && first.Some? then PaidBy(spays[id], first.value, after[id])
         else after[id] == spays[id]
    decreases log
  {
    if log != [] {
      OnSettledRow(spays, log[0], id);
      FirstDecides(OnSettled(spays, log[0]), log[1..], id);
    }
  }

  /** The first message stands at some place of the log, with none about its hash
      before it. */
  lemma {:induction false} FirstStands(log: seq<SettledEvent>, rhash: string)
    ensures FirstFor(log, rhash).None? <==> forall k :: 0 <= k < |log| ==> log[k].rhash != rhash
    ensures FirstFor(log, rhash).Some? ==>
      exists k :: 0 <= k < |log| && log[k] == SettledEvent(rhash, FirstFor(log, rhash).value)
                  && forall j :: 0 <= j < k ==> log[j].rhash != rhash
    decreases log
  {
    if log != [] {
      FirstStands(log[1..], rhash);
      assert forall k :: 0 < k < |log| ==> log[k] == log[1..][k - 1];
      if log[0].rhash != rhash && FirstFor(log, rhash).Some? {
        var k :| 0 <= k < |log[1..]| && log[1..][k] == SettledEvent(rhash, FirstFor(log, rhash).value)
                 && forall j :: 0 <= j < k ==> log[1..][j].rhash != rhash;
        assert log[k + 1] == log[1..][k];
      }
    }
  }

  lemma SpayReplay(spays: map<int, Spay>, history: seq<SettledEvent>, cuts: seq<nat>)
    requires forall k :: 0 <= k < |cuts| ==> cuts[k] <= |history|
    ensures Furthest(cuts) <= |history|
    ensures Apply(OnSettled, spays, Connections(history, cuts))
         == Apply(OnSettled, spays, Fresh(history[..Furthest(cuts)], {}))
  {
    SettledAbsorbing();
    ReconnectsIgnored(OnSettled, spays, history, cuts);
    DuplicatesIgnored(OnSettled, spays, history[..Furthest(cuts)]);
  }
}
