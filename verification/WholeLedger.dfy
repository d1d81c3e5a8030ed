/** Both products share one node: their steps interleave, and the node's cash is
    the sum of what the two have received and paid. */
module WholeLedger {
  import opened Wrappers
  import opened GoInt
  import opened Tables
  import opened Invoices
  import S = SpayProtocol
  import SL = SpayLedger
  import SR = SpayRefund
  import P = LuckPkProtocol
  import PI = LuckPkInvariant
  import PL = LuckPkLedger

  datatype Node = Node(spay: S.State, packets: P.State)

  ghost predicate SpayMoves(env: S.Env, s: S.State, t: S.State) { exists e :: S.Next(env, s, e, t) }

  ghost predicate PacketsMove(env: S.Env, s: P.State, t: P.State) { exists e :: P.Next(env.reg, s, e, t) }

  ghost predicate NodeStep(env: S.Env, m: Node, t: Node) {
    || (m.packets == t.packets && SpayMoves(env, m.spay, t.spay))
    || (m.spay == t.spay && PacketsMove(env, m.packets, t.packets))
  }

  /** t is a state of the node after n steps of either kind. */
  ghost predicate Runs(env: S.Env, n: nat, t: Node) {
    if n == 0 then exists clock: int :: clock > 0 && t == Node(S.Init(clock), P.INITIAL)
    else exists m :: Runs(env, n - 1, m) && NodeStep(env, m, t)
  }

  ghost predicate Projects(env: S.Env, t: Node, a: nat, b: nat) {
    S.Reachable(env, a, t.spay) && P.Leads(env.reg, P.INITIAL, b, t.packets)
  }

  lemma StartProjects(env: S.Env, t: Node)
    requires Runs(env, 0, t)
    ensures Projects(env, t, 0, 0)
  {
  }

  lemma SpayProjects(env: S.Env, m: Node, t: Node, a: nat, b: nat)
    requires Projects(env, m, a, b) && m.packets == t.packets && SpayMoves(env, m.spay, t.spay)
    ensures Projects(env, t, a + 1, b)
  {
  }

  lemma PacketsProject(env: S.Env, m: Node, t: Node, a: nat, b: nat)
    requires Projects(env, m, a, b) && m.spay == t.spay && PacketsMove(env, m.packets, t.packets)
    ensures Projects(env, t, a, b + 1)
  {
  }

  lemma StepProjects(env: S.Env, m: Node, t: Node, a: nat, b: nat) returns (a': nat, b': nat)
    requires Projects(env, m, a, b) && NodeStep(env, m, t)
    ensures Projects(env, t, a', b')
  {
    if m.packets == t.packets && SpayMoves(env, m.spay, t.spay) {
      SpayProjects(env, m, t, a, b);
      a', b' := a + 1, b;
    } else {
      PacketsProject(env, m, t, a, b);
      a', b' := a, b + 1;
    }
  }

  lemma {:induction false} Project(env: S.Env, n: nat, t: Node) returns (a: nat, b: nat)
    requires Runs(env, n, t)
    ensures Projects(env, t, a, b)
  {
    if n == 0 {
      a, b := 0, 0;
      StartProjects(env, t);
    } else {
      var m :| Runs(env, n - 1, m) && NodeStep(env, m, t);
      a, b := Project(env, n - 1, m);
      a, b := StepProjects(env, m, t, a, b);
    }
  }

  function Cash(t: Node, asset: int): int {
    S.Cash(t.spay, asset) + P.Cash(t.packets, asset)
  }

  ghost function Liabilities(t: Node, asset: int): int {
    Sum(SL.OwedOf(t.spay, asset)) + Sum(PL.PkOwedOf(t.packets, asset))
  }

  ghost function BitcoinPayouts(t: Node): int {
    Sum(SL.PayoutsOf(t.spay, 0)) + Sum(PL.PkPayoutsOf(t.packets, 0))
  }

  /** What the invoices of paid-up packets fall short of their amounts. */
  ghost function Shortfall(t: Node, asset: int): int { Sum(PL.PkShortOf(t.packets, asset)) }

  /** What was paid for spays beyond what was due: in another asset, or again. */
  ghost function Excess(env: S.Env, t: Node, asset: int): int { Sum(SL.ExcessOf(env.reg, t.spay, asset)) }

  /** Conservation of the whole node, in every state of every interleaving: what
      has been received and not paid out, routing fees apart, with the shortfall of
      packet invoices and the excess paid for spays, is what is owed to packets and
      spays; for bitcoin up to less than a satoshi per payout.  The shortfall is
      nothing exactly if every paid-up packet's amount fits its invoice, and
      otherwise 2^64 or more; the excess is nothing if every spay is regular. */
  lemma Conserved(env: S.Env, n: nat, t: Node, asset: int)
    requires ValidRegistry(env.reg) && Runs(env, n, t)
    ensures SL.Covers(Cash(t, asset) + Shortfall(t, asset) + Excess(env, t, asset), Liabilities(t, asset),
                      BitcoinPayouts(t), asset)
    ensures if PL.AllBacked(t.packets, asset) then Shortfall(t, asset) == 0 else Shortfall(t, asset) >= TWO_64
    ensures (forall id :: id in t.spay.spays ==> SL.Regular(env.reg, t.spay, id)) ==> Excess(env, t, asset) == 0
  {
    var a, b := Project(env, n, t);
    if asset != 0 {
      SL.AssetConserved(env, a, t.spay, asset);
      PL.AssetConserved(env.reg, b, t.packets, asset);
    } else {
      SL.BitcoinConserved(env, a, t.spay);
      PL.BitcoinConserved(env.reg, b, t.packets);
    }
    PI.ReachableInv(env.reg, b, t.packets);
    PL.ShortIff(env.reg, t.packets, asset);
    if forall id :: id in t.spay.spays ==> SL.Regular(env.reg, t.spay, id) {
      SL.NoExcess(env, a, t.spay, asset);
    }
  }

  /** With all four switches, all spays covered and all packets backed there is
      neither excess nor shortfall. */
  lemma HonestlyConserved(env: S.Env, n: nat, t: Node, asset: int)
    requires SL.Timely(env) && env.sameAsset && Runs(env, n, t) && SL.AllCovered(env, t.spay)
    requires PL.AllBacked(t.packets, asset)
    ensures SL.Covers(Cash(t, asset), Liabilities(t, asset), BitcoinPayouts(t), asset)
  {
    var a, b := Project(env, n, t);
    SL.HonestRegular(env, a, t.spay);
    Conserved(env, n, t, asset);
  }

  // ------------------------------------------------ read off the tables

  /** No payment and no notification is in hand. */
  predicate AtRest(t: Node) {
    && t.spay.unrecorded == {} && t.spay.refundLost == {} && t.spay.refundMux == None
    && (forall id :: id in t.spay.spays && t.spay.spays[id].siPayHash in t.spay.received ==>
          t.spay.spays[id].status != S.PayINIT)
    && (forall id :: id in t.packets.packets && PL.Funded(t.packets, id) ==> t.packets.packets[id].status != P.INIT)
    && (t.packets.inside.Some? ==> !t.packets.inside.value.Settled? && !t.packets.inside.value.Payed?)
  }

  ghost function UserPayedOf(t: Node, asset: int): map<int, int> {
    map id | id in t.spay.spays ::
      if t.spay.spays[id].assetId == asset && t.spay.spays[id].status == S.UserPayed then t.spay.spays[id].amt else 0
  }

  /** The balances of the packets that have been started. */
  ghost function BalancesOf(t: Node, asset: int): map<int, int> {
    map id | id in t.packets.packets ::
      if U32(t.packets.packets[id].assetId) == asset && t.packets.packets[id].status != P.INIT
      then t.packets.packets[id].balance else 0
  }

  lemma OwedAtRest(env: S.Env, a: nat, t: Node, asset: int)
    requires SL.Timely(env) && S.Reachable(env, a, t.spay) && SL.AllCovered(env, t.spay) && AtRest(t)
    ensures SL.OwedOf(t.spay, asset) == UserPayedOf(t, asset)
  {
    forall id | id in t.spay.spays ensures SL.OwedOf(t.spay, asset)[id] == UserPayedOf(t, asset)[id] {
      SL.OwedByStatus(env, a, t.spay, id);
    }
  }

  lemma BalancesAtRest(reg: Registry, t: Node, asset: int)
    requires PI.Inv(reg, t.packets) && AtRest(t)
    ensures PL.PkOwedOf(t.packets, asset) == BalancesOf(t, asset)
  {
    forall id | id in t.packets.packets
      ensures PL.PkOwedOf(t.packets, asset)[id] == BalancesOf(t, asset)[id] {
      assert PI.PacketOk(t.packets, id);
    }
  }

  /** At rest, for every asset, bitcoin among them, the cash is the amounts of the
      UserPayed spays and the balances of the started packets, as they stand in
      the two tables, but for the shortfall of packet invoices and for refunds in
      another asset. */
  lemma ConservedAtRest(env: S.Env, n: nat, t: Node, asset: int)
    requires SL.Timely(env) && Runs(env, n, t) && SL.AllCovered(env, t.spay) && AtRest(t)
    ensures var booked := Sum(UserPayedOf(t, asset)) + Sum(BalancesOf(t, asset));
      && SL.Covers(Cash(t, asset) + Shortfall(t, asset) + Excess(env, t, asset), booked, BitcoinPayouts(t), asset)
      && (PL.AllBacked(t.packets, asset) && env.sameAsset ==>
            SL.Covers(Cash(t, asset), booked, BitcoinPayouts(t), asset))
  {
    Conserved(env, n, t, asset);
    var a, b := Project(env, n, t);
    OwedAtRest(env, a, t, asset);
    PI.ReachableInv(env.reg, b, t.packets);
    BalancesAtRest(env.reg, t, asset);
    if env.sameAsset {
      SL.HonestRegular(env, a, t.spay);
    }
  }
}
