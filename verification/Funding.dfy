/** Matching channels: whenever a remote node opens a channel to the server, the
    server opens one back. */
module Funding {
  import opened Wrappers
  import opened GoInt

  const BTC_THRESHOLD: int := 100000
  const ASSET_THRESHOLD: int := 3000000000

  // ------------------------------------------------ how much

  /** The amount matched, in Go's int64. */
  function Match(cap: int, threshold: int): int {
    if cap > threshold then I64(threshold + Quo(I64(I64(cap - threshold) * 20), 100)) else cap
  }

  /** All of it up to the threshold, a fifth beyond. */
  function Ideal(cap: int, threshold: int): int {
    if cap > threshold then threshold + (cap - threshold) / 5 else cap
  }

  predicate Threshold(t: int) { t == BTC_THRESHOLD || t == ASSET_THRESHOLD }

  lemma QuoBounds(y: int)
    ensures y - 99 <= 100 * Quo(y, 100) <= y + 99
    ensures y >= 0 ==> Quo(y, 100) == y / 100
  {
  }

  /** Twenty times what exceeds the threshold is still an int64. */
  predicate Fits(cap: int, threshold: int) { cap <= threshold || (cap - threshold) * 20 < TWO_63 }

  lemma WrapsFar(x: int)
    requires x >= TWO_63
    ensures I64(x) <= x - TWO_64 && IsI64(I64(x))
  {
    var k := (x + TWO_63) / TWO_64;
    assert I64(x) == x - k * TWO_64;
    assert k >= 1;
  }

  /** The outer conversions of Match do nothing. */
  lemma MatchBeyond(cap: int, threshold: int)
    requires IsI64(cap) && Threshold(threshold) && cap > threshold
    ensures Match(cap, threshold) == threshold + Quo(I64((cap - threshold) * 20), 100)
  {
    var x := (cap - threshold) * 20;
    assert I64(cap - threshold) == cap - threshold;
    assert IsI64(I64(x));
    QuoBounds(I64(x));
    var y := threshold + Quo(I64(x), 100);
    assert I64(y) == y;
  }

  /** The machine computes the ideal amount exactly up to the cap at which the
      multiplication by twenty overflows, and less beyond. */
  lemma MatchIdealIff(cap: int, threshold: int)
    requires IsI64(cap) && Threshold(threshold)
    ensures Match(cap, threshold) == Ideal(cap, threshold) <==> Fits(cap, threshold)
    ensures Match(cap, threshold) <= Ideal(cap, threshold)
  {
    if cap > threshold {
      MatchBeyond(cap, threshold);
      BeyondIdeal(cap - threshold);
    }
  }

  lemma BeyondIdeal(over: int)
    requires over > 0
    ensures if over * 20 < TWO_63 then Quo(I64(over * 20), 100) == over / 5 else Quo(I64(over * 20), 100) < over / 5
  {
    var x := over * 20;
    assert x / 100 == over / 5;
    if x < TWO_63 {
      assert I64(x) == x;
    } else {
      WrapsFar(x);
      QuoBounds(I64(x));
    }
  }

  /** The server never puts in more than the other side did, whether or not the
      multiplication overflows. */
  lemma MatchBounded(cap: int, threshold: int)
    requires IsI64(cap) && Threshold(threshold)
    ensures Match(cap, threshold) <= cap
  {
    MatchIdealIff(cap, threshold);
  }

  /** The matched amount grows with the cap, by at most a fifth of the growth, up
      to rounding, beyond the threshold, and does not jump at it. */
  lemma MatchMonotone(a: int, b: int, threshold: int)
    requires IsI64(a) && IsI64(b) && Threshold(threshold) && a <= b && Fits(b, threshold)
    ensures Match(a, threshold) <= Match(b, threshold)
    ensures a >= threshold ==> 5 * (Match(b, threshold) - Match(a, threshold)) <= b - a + 4
    ensures Match(threshold + 1, threshold) - Match(threshold, threshold) <= 1
  {
    MatchIdealIff(a, threshold);
    MatchIdealIff(b, threshold);
    MatchIdealIff(threshold + 1, threshold);
  }

  ghost predicate MonotoneUpTo(b: int, threshold: int) {
    forall a, c :: IsI64(a) && a <= c <= b ==> Match(a, threshold) <= Match(c, threshold)
  }

  /** The largest excess whose twentyfold is an int64. */
  const LAST_FIT: int := (TWO_63 - 1) / 20

  /** It grows as far as the multiplication fits and no further: the next cap is
      matched with a negative amount. */
  lemma MatchMonotoneIff(b: int, threshold: int)
    requires IsI64(b) && Threshold(threshold)
    ensures MonotoneUpTo(b, threshold) <==> Fits(b, threshold)
  {
    if Fits(b, threshold) {
      forall a, c | IsI64(a) && a <= c <= b ensures Match(a, threshold) <= Match(c, threshold) {
        MatchMonotone(a, c, threshold);
      }
    } else {
      MatchDrops(threshold);
    }
  }

  lemma LastFit()
    ensures I64(LAST_FIT * 20) > 0
    ensures I64((LAST_FIT + 1) * 20) < -100 * ASSET_THRESHOLD
  {
    assert LAST_FIT == 461168601842738790;
  }

  lemma MatchDrops(threshold: int)
    requires Threshold(threshold)
    ensures Match(threshold + LAST_FIT + 1, threshold) < 0 < Match(threshold + LAST_FIT, threshold)
  {
    MatchBeyond(threshold + LAST_FIT, threshold);
    MatchBeyond(threshold + LAST_FIT + 1, threshold);
    LastFit();
    QuoBounds(I64(LAST_FIT * 20));
    QuoBounds(I64((LAST_FIT + 1) * 20));
  }

  /** Splitting a channel never lowers the total match. */
  lemma MatchSubadditive(a: int, b: int, threshold: int)
    requires a >= 0 && b >= 0 && IsI64(a + b) && Threshold(threshold) && Fits(a, threshold) && Fits(b, threshold)
    ensures Match(a + b, threshold) <= Match(a, threshold) + Match(b, threshold)
  {
    MatchIdealIff(a, threshold);
    MatchIdealIff(b, threshold);
    MatchIdealIff(a + b, threshold);
  }

  // ------------------------------------------------ the monitor

  datatype ChannelPair = ChannelPair(status: int, remotePubKey: string, chanId: string, assetId: int,
                                     btcCap: int, assetCap: int, localChanId: string,
                                     localBtcCap: int, localAssetCap: int, lastErrMsg: string)

  datatype ChannelEvent =
    | PendingOpen(initiator: bool, chanId: string, remotePubKey: string, assetId: int, btcCap: int, assetCap: int)
    | OtherEvent

  datatype OpenRequest = OpenRequest(remotePubKey: string, assetId: int, btc: int, asset: int)

  /** What the node sends on the stream of an open request. */
  datatype Update = ChanPending(point: Option<string>) | ChanOpen(point: Option<string>) | Eof | Broken(msg: string)

  /** The node refuses a request, or streams updates; built tells whether a
      channel comes of it, which the node then reports as one of its own. */
  datatype Answer = Refuses(msg: string) | Streams(updates: seq<Update>, built: bool)

  predicate Remote(e: ChannelEvent) { e.PendingOpen? && !e.initiator }

  function RemoteOnly(log: seq<ChannelEvent>): seq<ChannelEvent> {
    if log == [] then []
    else if Remote(log[0]) then [log[0]] + RemoteOnly(log[1..]) else RemoteOnly(log[1..])
  }

  /** Only bitcoin channels scale the bitcoin side, only asset channels the other. */
  function Request(e: ChannelEvent): OpenRequest
    requires Remote(e)
  {
    OpenRequest(e.remotePubKey, e.assetId,
                if e.assetId != 0 then e.btcCap else Match(e.btcCap, BTC_THRESHOLD),
                if e.assetId != 0 then Match(e.assetCap, ASSET_THRESHOLD) else e.assetCap)
  }

  /** A request for e: to its remote node, in its asset.  For a bitcoin channel the
      bitcoin side is matched in full up to 100000 satoshis and by a fifth beyond, for
      an asset channel the asset side up to 3000000000 units; the other side is taken
      over.  Of what does not fit int64 it says only that it is at most the cap. */
  predicate Asks(req: OpenRequest, e: ChannelEvent)
    requires e.PendingOpen?
  {
    && req.remotePubKey == e.remotePubKey && req.assetId == e.assetId
    && (e.assetId == 0 ==>
          && req.asset == e.assetCap
          && (IsI64(e.btcCap) ==> req.btc <= e.btcCap)
          && (IsI64(e.btcCap) && e.btcCap <= 100000 ==> req.btc == e.btcCap)
          && (100000 < e.btcCap && (e.btcCap - 100000) * 20 < 0x8000_0000_0000_0000 ==>
                req.btc == 100000 + (e.btcCap - 100000) / 5))
    && (e.assetId != 0 ==>
          && req.btc == e.btcCap
          && (IsI64(e.assetCap) ==> req.asset <= e.assetCap)
          && (IsI64(e.assetCap) && e.assetCap <= 3000000000 ==> req.asset == e.assetCap)
          && (3000000000 < e.assetCap && (e.assetCap - 3000000000) * 20 < 0x8000_0000_0000_0000 ==>
                req.asset == 3000000000 + (e.assetCap - 3000000000) / 5))
  }

  lemma RequestAsks(e: ChannelEvent)
    requires Remote(e)
    ensures Asks(Request(e), e)
  {
    if e.assetId == 0 {
      if IsI64(e.btcCap) {
        MatchIdealIff(e.btcCap, BTC_THRESHOLD);
        MatchBounded(e.btcCap, BTC_THRESHOLD);
      }
    } else if IsI64(e.assetCap) {
      MatchIdealIff(e.assetCap, ASSET_THRESHOLD);
      MatchBounded(e.assetCap, ASSET_THRESHOLD);
    }
  }

  /** The n-th remote event gets the n-th request. */
  lemma {:induction false} RequestsAsk(remotes: seq<ChannelEvent>, n: nat)
    requires forall k :: 0 <= k < |remotes| ==> Remote(remotes[k])
    requires n < |remotes|
    ensures |Requests(remotes)| == |remotes| && Asks(Requests(remotes)[n], remotes[n])
    decreases remotes
  {
    assert Remote(remotes[n]);
    if n == 0 {
      RequestAsks(remotes[0]);
      if |remotes| > 1 {
        RequestsAsk(remotes[1..], 0);
      }
    } else {
      RequestsAsk(remotes[1..], n - 1);
    }
  }

  lemma AllAsk(remotes: seq<ChannelEvent>)
    requires forall k :: 0 <= k < |remotes| ==> Remote(remotes[k])
    ensures |Requests(remotes)| == |remotes|
    ensures forall k :: 0 <= k < |remotes| ==> Asks(Requests(remotes)[k], remotes[k])
  {
    if remotes != [] {
      RequestsAsk(remotes, 0);
    }
    forall k | 0 <= k < |remotes| ensures Asks(Requests(remotes)[k], remotes[k]) {
      RequestsAsk(remotes, k);
    }
  }

  /** The remote events are those of other nodes' pending channels, each as often as
      it occurs. */
  lemma {:induction false} RemoteOnlyMeans(log: seq<ChannelEvent>, e: ChannelEvent)
    ensures multiset(RemoteOnly(log))[e] == if e.PendingOpen? && !e.initiator then multiset(log)[e] else 0
  {
    if log != [] {
      RemoteOnlyMeans(log[1..], e);
      assert log == [log[0]] + log[1..];
    }
  }

  function Requests(remotes: seq<ChannelEvent>): seq<OpenRequest>
    requires forall k :: 0 <= k < |remotes| ==> Remote(remotes[k])
  {
    if remotes == [] then [] else [Request(remotes[0])] + Requests(remotes[1..])
  }

  /** Two for an event that may lead to another, one for the rest. */
  function Measure(queue: seq<ChannelEvent>): nat {
    if queue == [] then 0 else (if Remote(queue[0]) then 2 else 1) + Measure(queue[1..])
  }

  lemma {:induction false} QueueAppend(queue: seq<ChannelEvent>, e: ChannelEvent)
    requires !Remote(e)
    ensures Measure(queue + [e]) == Measure(queue) + 1 && RemoteOnly(queue + [e]) == RemoteOnly(queue)
  {
    if queue == [] {
      assert [] + [e] == [e] && [e][1..] == [];
    } else {
      assert (queue + [e])[0] == queue[0] && (queue + [e])[1..] == queue[1..] + [e];
      QueueAppend(queue[1..], e);
    }
  }

  lemma {:induction false} RemoteOnlyRemote(log: seq<ChannelEvent>)
    ensures forall k :: 0 <= k < |RemoteOnly(log)| ==> Remote(RemoteOnly(log)[k])
  {
    if log != [] {
      RemoteOnlyRemote(log[1..]);
    }
  }

  /** The first event of the queue moves over to those that are done. */
  lemma MovedOver(done: seq<ChannelEvent>, before: seq<ChannelEvent>, queue: seq<ChannelEvent>, log: seq<ChannelEvent>)
    requires before != [] && Remote(before[0]) && RemoteOnly(queue) == RemoteOnly(before[1..]) && Split(done, before, log)
    ensures Split(done + [before[0]], queue, log)
  {
    assert RemoteOnly(before) == [before[0]] + RemoteOnly(queue);
  }

  lemma Passed(done: seq<ChannelEvent>, before: seq<ChannelEvent>, log: seq<ChannelEvent>)
    requires before != [] && !Remote(before[0]) && Split(done, before, log)
    ensures Split(done, before[1..], log)
  {
  }

  lemma AllDone(done: seq<ChannelEvent>, log: seq<ChannelEvent>)
    requires Split(done, [], log)
    ensures done == RemoteOnly(log)
  {
  }

  /** Those that are done and those in the queue are the remote events of the log. */
  predicate Split(done: seq<ChannelEvent>, queue: seq<ChannelEvent>, log: seq<ChannelEvent>) {
    done + RemoteOnly(queue) == RemoteOnly(log)
  }

  lemma {:induction false} RequestsAppend(remotes: seq<ChannelEvent>, e: ChannelEvent)
    requires Remote(e) && forall k :: 0 <= k < |remotes| ==> Remote(remotes[k])
    ensures Requests(remotes + [e]) == Requests(remotes) + [Request(e)]
  {
    if remotes == [] {
      assert [] + [e] == [e] && [e][1..] == [];
    } else {
      assert (remotes + [e])[0] == remotes[0] && (remotes + [e])[1..] == remotes[1..] + [e];
      RequestsAppend(remotes[1..], e);
    }
  }

  /** The row belongs to the event; a row with status 1 carries exactly the
      amounts of its request, any other none. */
  predicate RowFor(row: ChannelPair, e: ChannelEvent)
    requires Remote(e)
  {
    && row.chanId == e.chanId && row.remotePubKey == e.remotePubKey && row.assetId == e.assetId
    && row.btcCap == e.btcCap && row.assetCap == e.assetCap
    && (row.status == 0 || row.status == 1)
    && (row.status == 1 ==> row.localBtcCap == Request(e).btc && row.localAssetCap == Request(e).asset && Asks(Request(e), e))
    && (row.status == 0 ==> row.localBtcCap == 0 && row.localAssetCap == 0 && row.localChanId == "")
  }

  /** One row was added for each event, in order. */
  predicate RowsFor(base: seq<ChannelPair>, rows: seq<ChannelPair>, remotes: seq<ChannelEvent>)
    requires forall k :: 0 <= k < |remotes| ==> Remote(remotes[k])
  {
    && |rows| == |base| + |remotes| && rows[..|base|] == base
    && (forall k :: 0 <= k < |remotes| ==> RowFor(rows[|base| + k], remotes[k]))
  }

  lemma RowsForMore(base: seq<ChannelPair>, rows: seq<ChannelPair>, more: seq<ChannelPair>,
                    remotes: seq<ChannelEvent>, e: ChannelEvent)
    requires Remote(e) && forall k :: 0 <= k < |remotes| ==> Remote(remotes[k])
    requires RowsFor(base, rows, remotes)
    requires |more| == |rows| + 1 && more[..|rows|] == rows && RowFor(more[|rows|], e)
    ensures RowsFor(base, more, remotes + [e])
  {
    forall k | 0 <= k <= |remotes| ensures RowFor(more[|base| + k], (remotes + [e])[k]) {
      if k < |remotes| {
        assert more[..|rows|][|base| + k] == rows[|base| + k];
      }
    }
    assert more[..|base|] == more[..|rows|][..|base|];
  }

  /** The row once the node has named the channel. */
  function Opened(cp: ChannelPair, req: OpenRequest, point: string): ChannelPair {
    cp.(status := 1, localChanId := point, localBtcCap := req.btc, localAssetCap := req.asset)
  }

  /** The row after the updates of its request: the first pending channel, a bad
      channel point, or an error ends the stream. */
  function Followed(cp: ChannelPair, req: OpenRequest, updates: seq<Update>): ChannelPair
    decreases updates
  {
    if updates == [] then cp
    else
      match updates[0]
      case Eof => cp.(lastErrMsg := "openchannel err with EOF")
      case Broken(msg) => cp.(lastErrMsg := "openchannel err %v" + msg)
      case ChanPending(point) => if point.None? then cp else Opened(cp, req, point.value)
      case ChanOpen(point) =>
        if point.None? then cp else Followed(Opened(cp, req, point.value), req, updates[1..])
  }

  /** The channel point an update carries. */
  function PointOf(u: Update): Option<string> {
    match u
    case ChanPending(point) => point
    case ChanOpen(point) => point
    case _ => None
  }

  /** A row counts as matched exactly if the first update names the channel, and
      then it carries the amounts of the request and a point the node has named;
      what it says about the remote channel never changes. */
  lemma {:induction false} FollowedMeans(cp: ChannelPair, req: OpenRequest, updates: seq<Update>)
    requires cp.status == 0 || (cp.status == 1 && cp == Opened(cp, req, cp.localChanId))
    ensures var row := Followed(cp, req, updates);
      && row == cp.(status := row.status, localChanId := row.localChanId, localBtcCap := row.localBtcCap,
                    localAssetCap := row.localAssetCap, lastErrMsg := row.lastErrMsg)
      && (row.status == 0 || (row.status == 1 && row == Opened(row, req, row.localChanId)))
      && (row.status == 1 <==> cp.status == 1 || (updates != [] && PointOf(updates[0]).Some?))
      && (row.status == 0 ==> row == cp.(lastErrMsg := row.lastErrMsg))
      && (row.localChanId != cp.localChanId ==>
            exists k :: 0 <= k < |updates| && PointOf(updates[k]) == Some(row.localChanId))
    decreases updates
  {
    if updates != [] && updates[0].ChanOpen? && updates[0].point.Some? {
      var next := Opened(cp, req, updates[0].point.value);
      FollowedMeans(next, req, updates[1..]);
      var row := Followed(next, req, updates[1..]);
      if row.localChanId != next.localChanId {
        var k :| 0 <= k < |updates[1..]| && PointOf(updates[1..][k]) == Some(row.localChanId);
        assert updates[k + 1] == updates[1..][k];
      } else {
        assert PointOf(updates[0]) == Some(row.localChanId);
      }
    }
  }

  predicate NamesOpen(u: Update) { u.ChanOpen? && u.point.Some? }

  /** What ends the stream decides the message and, for a pending channel, the point:
      update k, the first that is not an opened channel with a point. */
  lemma {:induction false} FollowedLast(cp: ChannelPair, req: OpenRequest, updates: seq<Update>, k: nat)
    requires k < |updates| && !NamesOpen(updates[k]) && forall j :: 0 <= j < k ==> NamesOpen(updates[j])
    ensures var row := Followed(cp, req, updates);
      && row.lastErrMsg == (match updates[k]
                            case Eof => "openchannel err with EOF"
                            case Broken(msg) => "openchannel err %v" + msg
                            case _ => cp.lastErrMsg)
      && row.localChanId == if PointOf(updates[k]).Some? then PointOf(updates[k]).value
                            else if k > 0 && NamesOpen(updates[k - 1]) then updates[k - 1].point.value
                            else cp.localChanId
    decreases updates
  {
    if k > 0 {
      assert NamesOpen(updates[0]);
      assert forall j :: 0 <= j < k - 1 ==> NamesOpen(updates[j + 1]) && updates[1..][j] == updates[j + 1];
      FollowedLast(Opened(cp, req, updates[0].point.value), req, updates[1..], k - 1);
    }
  }

  class Monitor {
    var rows: seq<ChannelPair>
    ghost var opens: seq<OpenRequest>     // the requests sent to the node

    constructor ()
      ensures rows == [] && opens == []
    {
      rows, opens := [], [];
    }

    /** The loop over the updates of one open request; cp0 is the row as saved. */
    method FollowOpen(cp0: ChannelPair, req: OpenRequest, updates: seq<Update>) returns (cp: ChannelPair)
      ensures cp == Followed(cp0, req, updates)
    {
      cp := cp0;
      var k := 0;
      while k < |updates|
        invariant 0 <= k <= |updates|
        invariant Followed(cp, req, updates[k..]) == Followed(cp0, req, updates)
      {
        assert updates[k..][1..] == updates[k + 1..];
        match updates[k] {
          case Eof =>
            cp := cp.(lastErrMsg := "openchannel err with EOF");
            return;
          case Broken(msg) =>
            cp := cp.(lastErrMsg := "openchannel err %v" + msg);
            return;
          case ChanPending(point) =>
            if point.Some? {
              cp := cp.(status := 1, localChanId := point.value, localBtcCap := req.btc, localAssetCap := req.asset);
            }
            return;
          case ChanOpen(point) =>
            if point.None? {
              return;
            }
            cp := cp.(status := 1, localChanId := point.value, localBtcCap := req.btc, localAssetCap := req.asset);
        }
        k := k + 1;
      }
    }

    /** One channel opened by another node: one request, and one row for it.  own
        is the event that the node will report if a channel is built. */
    method MatchChannel(e: ChannelEvent, node: int -> Answer) returns (own: Option<ChannelEvent>)
      requires Remote(e)
      modifies this
      ensures opens == old(opens) + [Request(e)] && Asks(Request(e), e)
      ensures |rows| == |old(rows)| + 1 && rows[..|old(rows)|] == old(rows) && RowFor(rows[|old(rows)|], e)
      ensures var answer, row := node(|old(rows)|), rows[|old(rows)|];
        && (answer.Refuses? ==> row.status == 0 && row.lastErrMsg == "openchannel err %v" + answer.msg)
        && (answer.Streams? ==>
              (row.status == 1 <==> answer.updates != [] && PointOf(answer.updates[0]).Some?))
        && (own.Some? <==> answer.Streams? && answer.built)
      ensures own.Some? ==> !Remote(own.value)
    {
      own := None;
      RequestAsks(e);
      var req := Request(e);
      var cp := ChannelPair(0, e.remotePubKey, e.chanId, e.assetId, e.btcCap, e.assetCap, "", 0, 0, "");
      opens := opens + [req];
      var answer := node(|rows|);
      match answer {
        case Refuses(msg) => cp := cp.(lastErrMsg := "openchannel err %v" + msg);
        case Streams(updates, built) =>
          FollowedMeans(cp, req, updates);
          cp := FollowOpen(cp, req, updates);
          if built {
            own := Some(PendingOpen(true, cp.localChanId, e.remotePubKey, req.assetId, req.btc, req.asset));
          }
      }
      rows := rows + [cp];
    }

    /** Works off the log, which grows by an event of the node's own whenever a
        matching channel is opened.  node answers the n-th request. */
    method MonitorChannel(log: seq<ChannelEvent>, node: int -> Answer)
      modifies this
      ensures var remotes := RemoteOnly(log);
        && (forall k :: 0 <= k < |remotes| ==> Remote(remotes[k]))
        && opens == old(opens) + Requests(remotes) && RowsFor(old(rows), rows, remotes)
        && AskedInOrder(old(opens), opens, remotes)
    {
      var queue := log;
      ghost var done: seq<ChannelEvent> := [];
      RemoteOnlyRemote(log);
      while queue != []
        invariant forall k :: 0 <= k < |done| ==> Remote(done[k])
        invariant Split(done, queue, log)
        invariant opens == old(opens) + Requests(done)
        invariant RowsFor(old(rows), rows, done)
        decreases Measure(queue)
      {
        var e := queue[0];
        ghost var before, saved := queue, rows;
        queue := queue[1..];
        if Remote(e) {
          var own := MatchChannel(e, node);
          if own.Some? {
            QueueAppend(queue, own.value);
            queue := queue + [own.value];
          }
          RequestsAppend(done, e);
          RowsForMore(old(rows), saved, rows, done, e);
          MovedOver(done, before, queue, log);
          done := done + [e];
        } else {
          Passed(done, before, log);
        }
      }
      AllDone(done, log);
      InOrder(old(opens), done);
    }
  }

  // ------------------------------------------------ what it costs

  function BtcOf(rows: seq<ChannelPair>): int {
    if rows == [] then 0 else rows[0].btcCap + BtcOf(rows[1..])
  }

  function LocalBtcOf(rows: seq<ChannelPair>): int {
    if rows == [] then 0 else rows[0].localBtcCap + LocalBtcOf(rows[1..])
  }

  function AssetOf(rows: seq<ChannelPair>): int {
    if rows == [] then 0 else rows[0].assetCap + AssetOf(rows[1..])
  }

  function LocalAssetOf(rows: seq<ChannelPair>): int {
    if rows == [] then 0 else rows[0].localAssetCap + LocalAssetOf(rows[1..])
  }

  predicate CapsOk(e: ChannelEvent) { Remote(e) && 0 <= e.btcCap < TWO_63 && 0 <= e.assetCap < TWO_63 }

  /** The sums that requests ask for, what is below nothing counted as nothing. */
  function BtcAsked(reqs: seq<OpenRequest>): int {
    if reqs == [] then 0 else NonNegative(reqs[0].btc) + BtcAsked(reqs[1..])
  }

  function AssetAsked(reqs: seq<OpenRequest>): int {
    if reqs == [] then 0 else NonNegative(reqs[0].asset) + AssetAsked(reqs[1..])
  }

  function NonNegative(x: int): int { if x < 0 then 0 else x }

  function BtcCaps(remotes: seq<ChannelEvent>): int
    requires forall k :: 0 <= k < |remotes| ==> Remote(remotes[k])
  {
    if remotes == [] then 0
    else
      assert Remote(remotes[0]);
      remotes[0].btcCap + BtcCaps(remotes[1..])
  }

  function AssetCaps(remotes: seq<ChannelEvent>): int
    requires forall k :: 0 <= k < |remotes| ==> Remote(remotes[k])
  {
    if remotes == [] then 0
    else
      assert Remote(remotes[0]);
      remotes[0].assetCap + AssetCaps(remotes[1..])
  }

  /** The capacity the server asks for, whatever becomes of its requests, never
      exceeds what remote nodes put into their channels, in bitcoin and in assets. */
  lemma {:induction false} NeverOutspent(remotes: seq<ChannelEvent>)
    requires forall k :: 0 <= k < |remotes| ==> Remote(remotes[k]) && CapsOk(remotes[k])
    ensures BtcAsked(Requests(remotes)) <= BtcCaps(remotes)
    ensures AssetAsked(Requests(remotes)) <= AssetCaps(remotes)
  {
    if remotes != [] {
      var e := remotes[0];
      assert CapsOk(e);
      MatchBounded(e.btcCap, BTC_THRESHOLD);
      MatchBounded(e.assetCap, ASSET_THRESHOLD);
      NeverOutspent(remotes[1..]);
      assert Requests(remotes)[0] == Request(e) && Requests(remotes)[1..] == Requests(remotes[1..]);
    }
  }

  /** One request was added for each event, in order; together they ask for no more
      than the remote nodes put in. */
  ghost predicate AskedInOrder(before: seq<OpenRequest>, opens: seq<OpenRequest>, remotes: seq<ChannelEvent>)
    requires forall k :: 0 <= k < |remotes| ==> Remote(remotes[k])
  {
    && |opens| == |before| + |remotes| && opens[..|before|] == before
    && (forall k :: 0 <= k < |remotes| ==> Remote(remotes[k]) && Asks(opens[|before| + k], remotes[k]))
    && ((forall k :: 0 <= k < |remotes| ==> CapsOk(remotes[k])) ==>
          BtcAsked(opens[|before|..]) <= BtcCaps(remotes) && AssetAsked(opens[|before|..]) <= AssetCaps(remotes))
  }

  lemma InOrder(before: seq<OpenRequest>, remotes: seq<ChannelEvent>)
    requires forall k :: 0 <= k < |remotes| ==> Remote(remotes[k])
    ensures AskedInOrder(before, before + Requests(remotes), remotes)
  {
    AllAsk(remotes);
    assert (before + Requests(remotes))[|before|..] == Requests(remotes);
    if forall k :: 0 <= k < |remotes| ==> CapsOk(remotes[k]) {
      NeverOutspent(remotes);
    }
  }

  /** What the rows record as matched never exceeds it either. */
  lemma {:induction false} NeverOverbooked(rows: seq<ChannelPair>, remotes: seq<ChannelEvent>)
    requires |rows| == |remotes|
    requires forall k :: 0 <= k < |rows| ==> CapsOk(remotes[k]) && RowFor(rows[k], remotes[k])
    ensures LocalBtcOf(rows) <= BtcOf(rows) && LocalAssetOf(rows) <= AssetOf(rows)
  {
    if rows != [] {
      var e := remotes[0];
      assert CapsOk(e) && RowFor(rows[0], e);
      MatchBounded(e.btcCap, BTC_THRESHOLD);
      MatchBounded(e.assetCap, ASSET_THRESHOLD);
      NeverOverbooked(rows[1..], remotes[1..]);
    }
  }
}
