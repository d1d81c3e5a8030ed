/** The loop that listens for the server's own invoices, over any series of
    connections to the node, and what it does to the two tables. */
module InvoiceMonitor {
  import opened Wrappers
  import opened Invoices
  import opened Replay
  import S = SpayProtocol
  import SS = SpayServer
  import P = LuckPkProtocol
  import PS = LuckPkServer

  /** One message of the subscription, and whether the database takes the write
      that either handler tries. */
  datatype Message = Message(rhash: string, state: InvoiceState, inv: S.Settlement, spayOk: bool, packetOk: bool)

  /** The messages that reach the spay table. */
  function SpayLog(feed: seq<Message>): seq<SS.SettledEvent> {
    if feed == [] then []
    else if feed[0].state == SETTLED && feed[0].spayOk then
      [SS.SettledEvent(feed[0].rhash, feed[0].inv)] + SpayLog(feed[1..])
    else SpayLog(feed[1..])
  }

  /** The messages that reach the packet table. */
  function PacketLog(feed: seq<Message>): seq<string> {
    if feed == [] then []
    else if feed[0].state == SETTLED && feed[0].packetOk then [feed[0].rhash] + PacketLog(feed[1..])
    else PacketLog(feed[1..])
  }

  function Flat(connections: seq<seq<Message>>): seq<Message> {
    if connections == [] then [] else connections[0] + Flat(connections[1..])
  }

  lemma {:induction false} FlatAppend(connections: seq<seq<Message>>, feed: seq<Message>)
    ensures Flat(connections + [feed]) == Flat(connections) + feed
  {
    if connections == [] {
      assert [] + [feed] == [feed] && [feed][1..] == [];
    } else {
      assert (connections + [feed])[1..] == connections[1..] + [feed];
      FlatAppend(connections[1..], feed);
    }
  }

  lemma {:induction false} LogsAppend(a: seq<Message>, b: seq<Message>)
    ensures SpayLog(a + b) == SpayLog(a) + SpayLog(b)
    ensures PacketLog(a + b) == PacketLog(a) + PacketLog(b)
    decreases a
  {
    if a == [] {
      assert a + b == b;
    } else {
      assert (a + b)[1..] == a[1..] + b;
      LogsAppend(a[1..], b);
    }
  }

  lemma {:induction false} FlatMeans(connections: seq<seq<Message>>, m: Message)
    ensures m in Flat(connections) <==> exists c :: 0 <= c < |connections| && m in connections[c]
  {
    if connections != [] {
      FlatMeans(connections[1..], m);
      assert forall c :: 0 < c < |connections| ==> connections[c] == connections[1..][c - 1];
      if m in Flat(connections[1..]) {
        var c :| 0 <= c < |connections[1..]| && m in connections[1..][c];
        assert m in connections[c + 1];
      }
    }
  }

  lemma {:induction false} SpayLogMeans(feed: seq<Message>, e: SS.SettledEvent)
    ensures e in SpayLog(feed) <==>
      exists m :: m in feed && m.state == SETTLED && m.spayOk && e == SS.SettledEvent(m.rhash, m.inv)
  {
    if feed != [] {
      SpayLogMeans(feed[1..], e);
      assert feed == [feed[0]] + feed[1..];
    }
  }

  lemma {:induction false} PacketLogMeans(feed: seq<Message>, rhash: string)
    ensures rhash in PacketLog(feed) <==> exists m :: m in feed && m.state == SETTLED && m.packetOk && m.rhash == rhash
  {
    if feed != [] {
      PacketLogMeans(feed[1..], rhash);
      assert feed == [feed[0]] + feed[1..];
    }
  }

  /** Some connection brings a settled invoice with this hash. */
  predicate Brings(connections: seq<seq<Message>>, m: Message, rhash: string) {
    m.state == SETTLED && m.rhash == rhash && exists c :: 0 <= c < |connections| && m in connections[c]
  }

  /** A spay at PayINIT whose invoice is reported settled, and written, is paid by
      such a report, and every other row stays. */
  ghost predicate SpayHeard(connections: seq<seq<Message>>, r: S.Spay, t: S.Spay) {
    if r.status == S.PayINIT && exists m :: Brings(connections, m, r.siPayHash) && m.spayOk
    then exists m :: Brings(connections, m, r.siPayHash) && m.spayOk && SS.PaidBy(r, m.inv, t)
    else t == r
  }

  /** A packet at INIT whose invoice is reported settled, and written, works, and every
      other row stays. */
  ghost predicate PacketHeard(connections: seq<seq<Message>>, r: P.LuckPk, t: P.LuckPk) {
    t == if r.status == P.INIT && exists m :: Brings(connections, m, r.paymentHash) && m.packetOk
         then r.(status := P.WorkIng) else r
  }

  lemma FeedHeard(spays: map<int, S.Spay>, connections: seq<seq<Message>>, id: int)
    requires SS.HashesDiffer(spays) && id in spays
    ensures var after := Apply(SS.OnSettled, spays, SpayLog(Flat(connections)));
      id in after && SpayHeard(connections, spays[id], after[id])
  {
    var log, h := SpayLog(Flat(connections)), spays[id].siPayHash;
    SS.FirstDecides(spays, log, id);
    SS.FirstStands(log, h);
    match SS.FirstFor(log, h) {
      case None =>
        if m :| Brings(connections, m, h) && m.spayOk {
          FlatMeans(connections, m);
          SpayLogMeans(Flat(connections), SS.SettledEvent(h, m.inv));
          assert false;
        }
      case Some(inv) =>
        SpayLogMeans(Flat(connections), SS.SettledEvent(h, inv));
        var m :| m in Flat(connections) && m.state == SETTLED && m.spayOk
                 && SS.SettledEvent(h, inv) == SS.SettledEvent(m.rhash, m.inv);
        FlatMeans(connections, m);
        assert Brings(connections, m, h);
    }
  }

  lemma FeedStarts(packets: map<int, P.LuckPk>, connections: seq<seq<Message>>, id: int)
    requires PS.HashesDiffer(packets) && id in packets
    ensures var after := Apply(P.AfterSettled, packets, PacketLog(Flat(connections)));
      id in after && PacketHeard(connections, packets[id], after[id])
  {
    var log, h := PacketLog(Flat(connections)), packets[id].paymentHash;
    PS.LogStarts(packets, log, id);
    PacketLogMeans(Flat(connections), h);
    if h in log {
      var m :| m in Flat(connections) && m.state == SETTLED && m.packetOk && m.rhash == h;
      FlatMeans(connections, m);
      assert Brings(connections, m, h);
    } else if m :| Brings(connections, m, h) && m.packetOk {
      FlatMeans(connections, m);
      assert false;
    }
  }

  lemma AllHeard(spays: map<int, S.Spay>, packets: map<int, P.LuckPk>, connections: seq<seq<Message>>)
    ensures var after := Apply(SS.OnSettled, spays, SpayLog(Flat(connections)));
      SS.HashesDiffer(spays) ==> forall id :: id in spays ==> id in after && SpayHeard(connections, spays[id], after[id])
    ensures var after := Apply(P.AfterSettled, packets, PacketLog(Flat(connections)));
      PS.HashesDiffer(packets) ==>
        forall id :: id in packets ==> id in after && PacketHeard(connections, packets[id], after[id])
  {
    if SS.HashesDiffer(spays) {
      forall id | id in spays
        ensures var after := Apply(SS.OnSettled, spays, SpayLog(Flat(connections)));
          id in after && SpayHeard(connections, spays[id], after[id]) {
        FeedHeard(spays, connections, id);
      }
    }
    if PS.HashesDiffer(packets) {
      forall id | id in packets
        ensures var after := Apply(P.AfterSettled, packets, PacketLog(Flat(connections)));
          id in after && PacketHeard(connections, packets[id], after[id]) {
        FeedStarts(packets, connections, id);
      }
    }
  }

  /** Two stretches of the feed, one after the other. */
  lemma LogsApply(spays: map<int, S.Spay>, packets: map<int, P.LuckPk>, a: seq<Message>, b: seq<Message>)
    ensures Apply(SS.OnSettled, spays, SpayLog(a + b))
         == Apply(SS.OnSettled, Apply(SS.OnSettled, spays, SpayLog(a)), SpayLog(b))
    ensures Apply(P.AfterSettled, packets, PacketLog(a + b))
         == Apply(P.AfterSettled, Apply(P.AfterSettled, packets, PacketLog(a)), PacketLog(b))
  {
    LogsAppend(a, b);
    ApplyAppend(SS.OnSettled, spays, SpayLog(a), SpayLog(b));
    ApplyAppend(P.AfterSettled, packets, PacketLog(a), PacketLog(b));
  }

  /** The rows handed to payout goroutines are rows of different spays that were
      at PayINIT before the feed and are not any more. */
  ghost predicate Launched(before: map<int, S.Spay>, after: map<int, S.Spay>, started: seq<S.Spay>) {
    && after.Keys == before.Keys
    && (forall id :: id in before && before[id].status != S.PayINIT ==> after[id] == before[id])
    && (forall id :: id in before ==> after[id].id == before[id].id)
    && (forall k :: 0 <= k < |started| ==>
          && started[k].id in before && before[started[k].id].status == S.PayINIT
          && after[started[k].id] == started[k] && started[k].status == S.UserPayed)
    && (forall j, k :: 0 <= j < k < |started| ==> started[j].id != started[k].id)
    && (forall id :: id in before && after[id] != before[id] ==> after[id] in started)
  }

  lemma LaunchedTrans(a: map<int, S.Spay>, b: map<int, S.Spay>, c: map<int, S.Spay>, x: seq<S.Spay>, y: seq<S.Spay>)
    requires Launched(a, b, x) && Launched(b, c, y)
    ensures Launched(a, c, x + y)
  {
  }

  /** What the feed makes of the two tables. */
  ghost predicate Heard(was: map<int, S.Spay>, pks: map<int, P.LuckPk>, feed: seq<Message>,
                        spays: map<int, S.Spay>, packets: map<int, P.LuckPk>)
  {
    spays == Apply(SS.OnSettled, was, SpayLog(feed)) && packets == Apply(P.AfterSettled, pks, PacketLog(feed))
  }

  /** The tables and the payouts that the feed has led to. */
  ghost predicate Worked(was: map<int, S.Spay>, pks: map<int, P.LuckPk>, feed: seq<Message>,
                         spays: map<int, S.Spay>, packets: map<int, P.LuckPk>, started: seq<S.Spay>)
  {
    Heard(was, pks, feed, spays, packets) && Launched(was, spays, started)
  }

  lemma WorkedMore(was: map<int, S.Spay>, pks: map<int, P.LuckPk>, a: seq<Message>, b: seq<Message>,
                   spays: map<int, S.Spay>, packets: map<int, P.LuckPk>, started: seq<S.Spay>,
                   spays': map<int, S.Spay>, packets': map<int, P.LuckPk>, more: seq<S.Spay>)
    requires Worked(was, pks, a, spays, packets, started) && Worked(spays, packets, b, spays', packets', more)
    ensures Worked(was, pks, a + b, spays', packets', started + more)
  {
    LogsApply(was, pks, a, b);
    LaunchedTrans(was, spays, spays', started, more);
  }

  lemma NothingWorked(was: map<int, S.Spay>, pks: map<int, P.LuckPk>)
    requires forall id :: id in was ==> was[id].id == id
    ensures Worked(was, pks, [], was, pks, [])
  {
  }

  class Monitor {
    const spay: SS.Server
    const packets: PS.Server

    constructor (spay: SS.Server, packets: PS.Server)
      ensures this.spay == spay && this.packets == packets
    {
      this.spay, this.packets := spay, packets;
    }

    /** Each connection ends when the stream breaks, and the next one starts its
        history over.  started are the rows given to payout goroutines. */
    method MonitorInvoice(connections: seq<seq<Message>>) returns (started: seq<S.Spay>)
      requires forall id :: id in spay.spays ==> spay.spays[id].id == id
      modifies spay, packets`packets
      ensures spay.spays == Apply(SS.OnSettled, old(spay.spays), SpayLog(Flat(connections)))
      ensures packets.packets == Apply(P.AfterSettled, old(packets.packets), PacketLog(Flat(connections)))
      ensures Launched(old(spay.spays), spay.spays, started)
      ensures SS.HashesDiffer(old(spay.spays)) ==>
        forall id :: id in old(spay.spays) ==> SpayHeard(connections, old(spay.spays)[id], spay.spays[id])
      ensures PS.HashesDiffer(old(packets.packets)) ==>
        forall id :: id in old(packets.packets) ==>
          id in packets.packets && PacketHeard(connections, old(packets.packets)[id], packets.packets[id])
    {
      started := [];
      var n := 0;
      NothingWorked(spay.spays, packets.packets);
      while n < |connections|
        invariant 0 <= n <= |connections|
        invariant forall id :: id in spay.spays ==> spay.spays[id].id == id
        invariant Worked(old(spay.spays), old(packets.packets), Flat(connections[..n]), spay.spays, packets.packets, started)
      {
        ghost var spays, pks := spay.spays, packets.packets;
        var more := Listen(connections[n]);
        WorkedMore(old(spay.spays), old(packets.packets), Flat(connections[..n]), connections[n],
                   spays, pks, started, spay.spays, packets.packets, more);
        started := started + more;
        assert connections[..n + 1] == connections[..n] + [connections[n]];
        FlatAppend(connections[..n], connections[n]);
        n := n + 1;
      }
      assert connections[..n] == connections;
      AllHeard(old(spay.spays), old(packets.packets), connections);
    }

    /** One connection. */
    method Listen(rs: seq<Message>) returns (started: seq<S.Spay>)
      requires forall id :: id in spay.spays ==> spay.spays[id].id == id
      modifies spay, packets`packets
      ensures forall id :: id in spay.spays ==> spay.spays[id].id == id
      ensures Worked(old(spay.spays), old(packets.packets), rs, spay.spays, packets.packets, started)
    {
      started := [];
      var k := 0;
      NothingWorked(spay.spays, packets.packets);
      while k < |rs|
        invariant 0 <= k <= |rs|
        invariant forall id :: id in spay.spays ==> spay.spays[id].id == id
        invariant Worked(old(spay.spays), old(packets.packets), rs[..k], spay.spays, packets.packets, started)
      {
        ghost var spays, pks := spay.spays, packets.packets;
        var more := Receive(rs[k]);
        WorkedMore(old(spay.spays), old(packets.packets), rs[..k], [rs[k]],
                   spays, pks, started, spay.spays, packets.packets, more);
        started := started + more;
        assert rs[..k + 1] == rs[..k] + [rs[k]];
        k := k + 1;
      }
      assert rs[..k] == rs;
    }

    /** One message: only settled invoices are looked at. */
    method Receive(m: Message) returns (started: seq<S.Spay>)
      requires forall id :: id in spay.spays ==> spay.spays[id].id == id
      modifies spay, packets`packets
      ensures forall id :: id in spay.spays ==> spay.spays[id].id == id
      ensures Worked(old(spay.spays), old(packets.packets), [m], spay.spays, packets.packets, started)
    {
      assert [m][1..] == [];
      started := [];
      if m.state == SETTLED {
        var start := spay.UpdateSpayByInvoice(m.rhash, m.state, m.inv, m.spayOk);
        packets.UpdateLuckPkByInvoice(m.rhash, m.state, m.packetOk);
        if start.Some? {
          started := [start.value];
        }
      }
    }
  }
}
