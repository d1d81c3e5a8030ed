/** The shutdown protocol: interceptors, their handler goroutines, and the
    goroutines that ask for a shutdown. */
module Interceptor {
  import opened Wrappers

  // ------------------------------------------------ the protocol

  /** Where the handler goroutine of an interceptor stands. */
  datatype Handler =
    | AtSelect
    | InShutdown     // took a signal or a request, before the test of isShutdown
    | Flagged        // isShutdown set, quit about to be closed
    | SawQuit        // took the quit case, shutdownChannel about to be closed
    | Closed         // shutdownChannel closed, the deferred store to come
    | Gone

  /** An interceptor as Intercept returns it: made with its channels and handler,
      or, when Intercept failed, the empty one, whose channels are nil.  closes
      count the close operations, so that a second one is visible. */
  datatype Inst = Inst(
    made: bool,
    signals: nat,                // buffered interrupts, at most one
    isShutdown: bool,
    quitCloses: nat,
    shutdownCloses: nat,
    handler: Handler,
    requesters: set<int>)        // goroutines inside RequestShutdown

  datatype State = State(started: bool, insts: map<int, Inst>)

  const INITIAL: State := State(false, map[])

  const EMPTY: Inst := Inst(false, 0, false, 0, 0, Gone, {})

  datatype Event =
    | Intercept(i: int)              // the swap of started succeeds
    | InterceptFails(i: int)         // the swap fails; i is the empty interceptor
    | Interrupt(i: int)              // a signal; dropped when the buffer is full
    | Request(i: int, r: int)        // a goroutine calls RequestShutdown
    | TakeSignal(i: int)
    | TakeRequest(i: int, r: int)    // the handler receives from the requester
    | QuitRequest(i: int, r: int)    // the requester sees quit closed
    | Ignore(i: int)                 // isShutdown was set already
    | Flag(i: int)
    | CloseQuit(i: int)
    | TakeQuit(i: int)
    | CloseShutdown(i: int)
    | Return(i: int)                 // started is stored as 0

  predicate HandlerAt(s: State, i: int, h: Handler) { i in s.insts && s.insts[i].handler == h }

  predicate QuitClosed(s: State, i: int) { i in s.insts && s.insts[i].quitCloses > 0 }

  predicate Enabled(s: State, e: Event) {
    match e
    case Intercept(i) => !s.started && i !in s.insts
    case InterceptFails(i) => s.started && i !in s.insts
    case Interrupt(i) => i in s.insts && s.insts[i].made
    case Request(i, r) => i in s.insts && r !in s.insts[i].requesters
    case TakeSignal(i) => HandlerAt(s, i, AtSelect) && s.insts[i].signals > 0
    case TakeRequest(i, r) => HandlerAt(s, i, AtSelect) && r in s.insts[i].requesters
    case QuitRequest(i, r) => QuitClosed(s, i) && r in s.insts[i].requesters
    case Ignore(i) => HandlerAt(s, i, InShutdown) && s.insts[i].isShutdown
    case Flag(i) => HandlerAt(s, i, InShutdown) && !s.insts[i].isShutdown
    case CloseQuit(i) => HandlerAt(s, i, Flagged)
    case TakeQuit(i) => HandlerAt(s, i, AtSelect) && QuitClosed(s, i)
    case CloseShutdown(i) => HandlerAt(s, i, SawQuit)
    case Return(i) => HandlerAt(s, i, Closed)
  }

  function Put(s: State, i: int, x: Inst): State { s.(insts := s.insts[i := x]) }

  function Step(s: State, e: Event): State
    requires Enabled(s, e)
  {
    match e
    case Intercept(i) => State(true, s.insts[i := Inst(true, 0, false, 0, 0, AtSelect, {})])
    case InterceptFails(i) => Put(s, i, EMPTY)
    case Interrupt(i) =>
      var x := s.insts[i];
      Put(s, i, x.(signals := if x.signals == 0 then 1 else x.signals))
    case Request(i, r) => Put(s, i, s.insts[i].(requesters := s.insts[i].requesters + {r}))
    case TakeSignal(i) => Put(s, i, s.insts[i].(signals := s.insts[i].signals - 1, handler := InShutdown))
    case TakeRequest(i, r) =>
      Put(s, i, s.insts[i].(requesters := s.insts[i].requesters - {r}, handler := InShutdown))
    case QuitRequest(i, r) => Put(s, i, s.insts[i].(requesters := s.insts[i].requesters - {r}))
    case Ignore(i) => Put(s, i, s.insts[i].(handler := AtSelect))
    case Flag(i) => Put(s, i, s.insts[i].(isShutdown := true, handler := Flagged))
    case CloseQuit(i) => Put(s, i, s.insts[i].(quitCloses := s.insts[i].quitCloses + 1, handler := AtSelect))
    case TakeQuit(i) => Put(s, i, s.insts[i].(handler := SawQuit))
    case CloseShutdown(i) =>
      Put(s, i, s.insts[i].(shutdownCloses := s.insts[i].shutdownCloses + 1, handler := Closed))
    case Return(i) => Put(s, i, s.insts[i].(handler := Gone)).(started := false)
  }

  ghost predicate Leads(s: State, n: nat, t: State) {
    if n == 0 then s == t
    else exists m, e :: Leads(s, n - 1, m) && Enabled(m, e) && t == Step(m, e)
  }

  // ------------------------------------------------ the invariant

  predicate InstOk(x: Inst) {
    && x.signals <= 1 && x.quitCloses <= 1 && x.shutdownCloses <= 1
    && (if x.made then MadeOk(x) else x == EMPTY.(requesters := x.requesters))
  }

  predicate MadeOk(x: Inst) {
    && (x.handler == Flagged ==> x.isShutdown && x.quitCloses == 0)
    && (x.handler != Flagged ==> (x.isShutdown <==> x.quitCloses == 1))
    && (x.handler == SawQuit || x.handler == Closed || x.handler == Gone ==> x.quitCloses == 1)
    && (x.shutdownCloses == 1 <==> x.handler == Closed || x.handler == Gone)
  }

  predicate Live(s: State, i: int) { i in s.insts && s.insts[i].handler != Gone }

  ghost predicate OneLive(s: State) {
    && (forall i, j :: Live(s, i) && Live(s, j) ==> i == j)
    && (s.started <==> exists i :: Live(s, i))
  }

  ghost predicate Inv(s: State) {
    (forall i :: i in s.insts ==> InstOk(s.insts[i])) && OneLive(s)
  }

  lemma StepInst(s: State, e: Event)
    requires Enabled(s, e) && (e.i in s.insts ==> InstOk(s.insts[e.i]))
    ensures e.i in Step(s, e).insts && InstOk(Step(s, e).insts[e.i])
    ensures forall j :: j != e.i ==>
      (j in Step(s, e).insts <==> j in s.insts) && (j in s.insts ==> Step(s, e).insts[j] == s.insts[j])
  {
  }

  lemma StepLive(s: State, e: Event)
    requires Inv(s) && Enabled(s, e)
    ensures OneLive(Step(s, e))
  {
    var t := Step(s, e);
    StepInst(s, e);
    if e.Intercept? {
      assert Live(t, e.i) && forall j :: !Live(s, j);
      forall j | Live(t, j) ensures j == e.i {
        assert j != e.i ==> Live(s, j);
      }
    } else if e.Return? {
      assert Live(s, e.i) && !Live(t, e.i);
      assert forall j :: Live(t, j) ==> Live(s, j);
    } else {
      assert forall j :: Live(t, j) <==> Live(s, j);
    }
  }

  lemma StepInv(s: State, e: Event)
    requires Inv(s) && Enabled(s, e)
    ensures Inv(Step(s, e))
  {
    StepInst(s, e);
    StepLive(s, e);
  }

  lemma {:induction false} LeadsInv(n: nat, t: State)
    requires Leads(INITIAL, n, t)
    ensures Inv(t)
  {
    if n > 0 {
      var m, e :| Leads(INITIAL, n - 1, m) && Enabled(m, e) && t == Step(m, e);
      LeadsInv(n - 1, m);
      StepInv(m, e);
    }
  }

  /** Over every interleaving: neither channel is closed twice, the shutdown
      channel is closed only after quit, and the flag agrees with quit whenever
      the handler is at its select. */
  lemma ClosedOnce(n: nat, t: State, i: int)
    requires Leads(INITIAL, n, t) && i in t.insts
    ensures t.insts[i].quitCloses <= 1 && t.insts[i].shutdownCloses <= t.insts[i].quitCloses
    ensures HandlerAt(t, i, AtSelect) ==> (t.insts[i].isShutdown <==> QuitClosed(t, i))
  {
    LeadsInv(n, t);
    assert InstOk(t.insts[i]);
  }

  /** However often Intercept is called, at most one handler is live, and started
      says whether there is one. */
  lemma OneHandler(n: nat, t: State)
    requires Leads(INITIAL, n, t)
    ensures forall i, j :: Live(t, i) && Live(t, j) ==> i == j
    ensures t.started <==> exists i :: Live(t, i)
  {
    LeadsInv(n, t);
  }

  /** The select on quit: a nil channel is never ready. */
  predicate Alive(s: State, i: int)
    requires i in s.insts
  {
    s.insts[i].quitCloses == 0
  }

  predicate Listening(s: State, i: int)
    requires i in s.insts
  {
    s.started && Alive(s, i)
  }

  /** On an interceptor that was made, Listening holds exactly while its own quit
      is open, and then its own handler is live.  On the empty one Alive always
      holds, and Listening says whether some other one has a live handler. */
  lemma ListeningIff(n: nat, t: State, i: int)
    requires Leads(INITIAL, n, t) && i in t.insts
    ensures t.insts[i].made ==> (Listening(t, i) <==> Alive(t, i))
    ensures t.insts[i].made && Alive(t, i) ==> Live(t, i) && t.insts[i].shutdownCloses == 0
    ensures !t.insts[i].made ==> Alive(t, i) && !Live(t, i) && (Listening(t, i) <==> exists j :: j != i && Live(t, j))
  {
    LeadsInv(n, t);
    assert InstOk(t.insts[i]);
    if t.insts[i].made && Alive(t, i) {
      assert Live(t, i);
    }
  }

  // ------------------------------------------------ nobody waits for ever

  /** Handler steps until a requester that is waiting now can go. */
  function Delay(x: Inst): nat {
    match x.handler
    case InShutdown => if x.isShutdown then 1 else 2
    case Flagged => 1
    case _ => 0
  }

  predicate CanGo(s: State, i: int, r: int) { Enabled(s, TakeRequest(i, r)) || Enabled(s, QuitRequest(i, r)) }

  /** The one step the handler takes between its selects. */
  function Own(s: State, i: int): Event
    requires i in s.insts
  {
    match s.insts[i].handler
    case InShutdown => if s.insts[i].isShutdown then Ignore(i) else Flag(i)
    case _ => CloseQuit(i)
  }

  /** A goroutine inside RequestShutdown of an interceptor that was made can go on
      at once, and always can once quit is closed, or the handler has a step of its
      own that brings this nearer. */
  lemma RequestGoes(n: nat, t: State, i: int, r: int)
    requires Leads(INITIAL, n, t) && i in t.insts && t.insts[i].made && r in t.insts[i].requesters
    ensures QuitClosed(t, i) ==> CanGo(t, i, r)
    ensures CanGo(t, i, r) <==> Delay(t.insts[i]) == 0 || QuitClosed(t, i)
    ensures !CanGo(t, i, r) ==> Enabled(t, Own(t, i)) && Nearer(t, Step(t, Own(t, i)), i, r)
  {
    LeadsInv(n, t);
    assert InstOk(t.insts[i]);
  }

  predicate Nearer(s: State, t: State, i: int, r: int)
    requires i in s.insts
  {
    i in t.insts && t.insts[i].made && r in t.insts[i].requesters && Delay(t.insts[i]) < Delay(s.insts[i])
  }

  /** Some later state in which the goroutine has left RequestShutdown. */
  ghost predicate CanLeave(s: State, i: int, r: int) {
    exists n: nat, t: State :: Leads(s, n, t) && i in t.insts && r !in t.insts[i].requesters
  }

  lemma {:induction false} FirstStep(s: State, e: Event, n: nat, t: State)
    requires Enabled(s, e) && Leads(Step(s, e), n, t)
    ensures Leads(s, n + 1, t)
  {
    if n == 0 {
      assert Leads(s, 0, s);
    } else {
      var m, f :| Leads(Step(s, e), n - 1, m) && Enabled(m, f) && t == Step(m, f);
      FirstStep(s, e, n - 1, m);
    }
  }

  lemma NextLeads(n: nat, s: State, e: Event)
    requires Leads(INITIAL, n, s) && Enabled(s, e)
    ensures Leads(INITIAL, n + 1, Step(s, e))
  {
    assert Leads(INITIAL, n + 1 - 1, s);
  }

  lemma GoesAtOnce(s: State, i: int, r: int)
    requires CanGo(s, i, r)
    ensures CanLeave(s, i, r)
  {
    var e := if Enabled(s, TakeRequest(i, r)) then TakeRequest(i, r) else QuitRequest(i, r);
    assert Leads(s, 0, s);
    assert Leads(s, 1, Step(s, e));
  }

  lemma {:induction false} MadeLeaves(n: nat, t: State, i: int, r: int)
    requires Leads(INITIAL, n, t) && i in t.insts && t.insts[i].made && r in t.insts[i].requesters
    ensures CanLeave(t, i, r)
    decreases Delay(t.insts[i])
  {
    RequestGoes(n, t, i, r);
    if CanGo(t, i, r) {
      GoesAtOnce(t, i, r);
    } else {
      var e := Own(t, i);
      NextLeads(n, t, e);
      MadeLeaves(n + 1, Step(t, e), i, r);
      var k: nat, u: State :| Leads(Step(t, e), k, u) && i in u.insts && r !in u.insts[i].requesters;
      FirstStep(t, e, k, u);
    }
  }

  /** Nobody takes a request from the empty interceptor. */
  predicate Stuck(s: State, i: int, r: int) {
    i in s.insts && s.insts[i] == EMPTY.(requesters := s.insts[i].requesters) && r in s.insts[i].requesters
  }

  lemma StepStuck(s: State, e: Event, i: int, r: int)
    requires Stuck(s, i, r) && Enabled(s, e)
    ensures Stuck(Step(s, e), i, r)
  {
    if e.i != i {
      assert Step(s, e).insts[i] == s.insts[i];
    }
  }

  lemma {:induction false} StaysStuck(s: State, i: int, r: int, n: nat, t: State)
    requires Stuck(s, i, r) && Leads(s, n, t)
    ensures Stuck(t, i, r)
  {
    if n > 0 {
      var m, e :| Leads(s, n - 1, m) && Enabled(m, e) && t == Step(m, e);
      StaysStuck(s, i, r, n - 1, m);
      StepStuck(m, e, i, r);
    }
  }

  /** A goroutine inside RequestShutdown can leave it if and only if its
      interceptor is one that Intercept made. */
  lemma LeavesIff(n: nat, t: State, i: int, r: int)
    requires Leads(INITIAL, n, t) && i in t.insts && r in t.insts[i].requesters
    ensures CanLeave(t, i, r) <==> t.insts[i].made
  {
    if t.insts[i].made {
      MadeLeaves(n, t, i, r);
    } else if CanLeave(t, i, r) {
      LeadsInv(n, t);
      assert InstOk(t.insts[i]);
      var k: nat, u: State :| Leads(t, k, u) && i in u.insts && r !in u.insts[i].requesters;
      StaysStuck(t, i, r, k, u);
      assert false;
    }
  }

  // ------------------------------------------------ the handler's code

  /** A channel that is only ever closed; closing it again panics. */
  class Chan {
    var closed: bool

    constructor ()
      ensures !closed
    {
      closed := false;
    }

    method Close()
      requires !closed
      modifies this
      ensures closed
    {
      closed := true;
    }
  }

  /** What a select finds ready, in the order in which it is served. */
  datatype Ready = Signal | RequestMsg | Quit

  class Channels {
    const quit: Chan
    const shutdownChannel: Chan

    constructor ()
      ensures fresh(quit) && fresh(shutdownChannel) && quit != shutdownChannel
      ensures !quit.closed && !shutdownChannel.closed
    {
      quit := new Chan();
      shutdownChannel := new Chan();
    }

    predicate Distinct() { quit != shutdownChannel }

    /** The first close of quit may be seen at the earliest by the next select. */
    static predicate Possible(served: seq<Ready>) {
      forall k :: 0 <= k < |served| && served[k] == Quit ==> exists j :: 0 <= j < k && served[j] != Quit
    }

    /** The handler's loop over what its selects serve.  It returns after a Quit;
        otherwise it is still waiting at its select when the script ends. */
    method MainInterruptHandler(served: seq<Ready>) returns (returned: bool)
      requires Distinct() && !quit.closed && !shutdownChannel.closed && Possible(served)
      modifies quit, shutdownChannel
      ensures returned <==> Quit in served
      ensures quit.closed <==> served != []
      ensures shutdownChannel.closed <==> returned
    {
      var isShutdown := false;
      var k := 0;
      while k < |served|
        invariant 0 <= k <= |served|
        invariant isShutdown == quit.closed == (k > 0)
        invariant !shutdownChannel.closed && Quit !in served[..k]
      {
        assert served[..k + 1] == served[..k] + [served[k]];
        match served[k] {
          case Quit =>
            shutdownChannel.Close();
            return true;
          case _ =>
            if !isShutdown {
              isShutdown := true;
              quit.Close();
            }
        }
        k := k + 1;
      }
      assert served[..k] == served;
      returned := false;
    }
  }
}
