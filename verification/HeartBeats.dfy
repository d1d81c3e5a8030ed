/** The wait group that keeps the process alive while heart-beat streams run. */
module HeartBeats {
  /** A stream has passed the shutdown test, has been added to the wait group, or
      has returned. */
  datatype Stream = Entered | Added | Returned

  datatype State = State(streams: map<int, Stream>, counter: int, shutdown: bool, waited: bool)

  datatype Event =
    | Enter(i: int)        // a new stream finds the shutdown channel open
    | Reject(i: int)       // or closed
    | EarlyReturn(i: int)  // a query or a send fails before the wait group is touched
    | Add(i: int)
    | Done(i: int)         // the deferred call, on whatever way out
    | Shutdown
    | WaitReturns          // main goes on after the wait group

  const INITIAL: State := State(map[], 0, false, false)

  predicate Enabled(s: State, e: Event) {
    match e
    case Enter(i) => i !in s.streams && !s.shutdown
    case Reject(i) => i !in s.streams && s.shutdown
    case EarlyReturn(i) => i in s.streams && s.streams[i] == Entered
    case Add(i) => i in s.streams && s.streams[i] == Entered
    case Done(i) => i in s.streams && s.streams[i] == Added
    case Shutdown => !s.shutdown
    case WaitReturns => s.shutdown && s.counter == 0
  }

  function Step(s: State, e: Event): State
    requires Enabled(s, e)
  {
    match e
    case Enter(i) => s.(streams := s.streams[i := Entered])
    case Reject(i) => s.(streams := s.streams[i := Returned])
    case EarlyReturn(i) => s.(streams := s.streams[i := Returned])
    case Add(i) => s.(streams := s.streams[i := Added], counter := s.counter + 1)
    case Done(i) => s.(streams := s.streams[i := Returned], counter := s.counter - 1)
    case Shutdown => s.(shutdown := true)
    case WaitReturns => s.(waited := true)
  }

  ghost predicate Leads(s: State, n: nat, t: State) {
    if n == 0 then s == t
    else exists m, e :: Leads(s, n - 1, m) && Enabled(m, e) && t == Step(m, e)
  }

  function At(s: State, where: Stream): set<int> { set i | i in s.streams && s.streams[i] == where }

  /** Moving one stream between places. */
  lemma MoveOne(s: State, t: State, i: int, where: Stream)
    requires t.streams == s.streams[i := where]
    ensures At(t, Added) == if where == Added then At(s, Added) + {i} else At(s, Added) - {i}
  {
  }

  lemma StepBalance(s: State, e: Event)
    requires Enabled(s, e) && s.counter == |At(s, Added)|
    ensures Step(s, e).counter == |At(Step(s, e), Added)|
  {
    var t := Step(s, e);
    if e.Shutdown? || e.WaitReturns? {
      assert At(t, Added) == At(s, Added);
    } else {
      MoveOne(s, t, e.i, t.streams[e.i]);
      if e.Done? {
        assert e.i in At(s, Added);
      } else {
        assert e.i !in At(s, Added);
      }
    }
  }

  lemma NoneIff(a: set<int>)
    ensures |a| == 0 <==> forall i :: i !in a
  {
    if !exists i :: i in a {
      assert a == {};
    }
  }

  lemma {:induction false} BalancedFrom(s: State, n: nat, t: State)
    requires s.counter == |At(s, Added)| && Leads(s, n, t)
    ensures t.counter == |At(t, Added)|
  {
    if n > 0 {
      var m, e :| Leads(s, n - 1, m) && Enabled(m, e) && t == Step(m, e);
      BalancedFrom(s, n - 1, m);
      StepBalance(m, e);
    }
  }

  /** Over every interleaving the counter is the number of streams between their
      Add and their deferred Done, so it is never negative, and it is zero when
      all of them have returned; early returns leave it alone. */
  lemma Balanced(n: nat, t: State)
    requires Leads(INITIAL, n, t)
    ensures t.counter == |At(t, Added)|
    ensures t.counter == 0 <==> forall i :: i in t.streams ==> t.streams[i] != Added
  {
    assert At(INITIAL, Added) == {};
    BalancedFrom(INITIAL, n, t);
    ZeroIff(t);
  }

  lemma ZeroIff(s: State)
    requires s.counter == |At(s, Added)|
    ensures s.counter == 0 <==> forall i :: i in s.streams ==> s.streams[i] != Added
  {
    NoneIff(At(s, Added));
    assert forall i :: i in s.streams && s.streams[i] == Added ==> i in At(s, Added);
  }

  // ------------------------------------------------ after main has gone on

  /** No new stream is let in: whatever is on its way or live was before. */
  predicate Shut(s: State, t: State) {
    && t.shutdown && t.waited
    && (forall i :: i in t.streams && t.streams[i] != Returned ==> i in s.streams && s.streams[i] != Returned)
    && (forall i :: i in t.streams && t.streams[i] == Entered ==> i in s.streams && s.streams[i] == Entered)
  }

  lemma StepShut(s: State, m: State, e: Event)
    requires Shut(s, m) && Enabled(m, e)
    ensures Shut(s, Step(m, e))
  {
  }

  lemma {:induction false} LeadsShut(s: State, n: nat, t: State)
    requires Shut(s, s) && Leads(s, n, t)
    ensures Shut(s, t)
  {
    if n > 0 {
      var m, e :| Leads(s, n - 1, m) && Enabled(m, e) && t == Step(m, e);
      LeadsShut(s, n - 1, m);
      StepShut(s, m, e);
    }
  }

  lemma {:induction false} WaitedIsShut(n: nat, t: State)
    requires Leads(INITIAL, n, t)
    ensures t.waited ==> t.shutdown
  {
    if n > 0 {
      var m, e :| Leads(INITIAL, n - 1, m) && Enabled(m, e) && t == Step(m, e);
      WaitedIsShut(n - 1, m);
    }
  }

  /** Some later state counts stream i. */
  ghost predicate CanBeLive(s: State, i: int) {
    exists n: nat, t: State :: Leads(s, n, t) && i in t.streams && t.streams[i] == Added
  }

  /** Once main has gone on, a stream is live now or later if and only if it is
      live or has passed the shutdown test; nothing keeps the latter from joining. */
  lemma LiveAfterWaitIff(n: nat, s: State, i: int)
    requires Leads(INITIAL, n, s) && s.waited
    ensures CanBeLive(s, i) <==> i in s.streams && s.streams[i] != Returned
  {
    WaitedIsShut(n, s);
    if i in s.streams && s.streams[i] == Entered {
      JoinsNext(s, i);
    } else if i in s.streams && s.streams[i] == Added {
      assert Leads(s, 0, s);
    } else if CanBeLive(s, i) {
      var k: nat, t: State :| Leads(s, k, t) && i in t.streams && t.streams[i] == Added;
      LeadsShut(s, k, t);
      assert false;
    }
  }

  lemma JoinsNext(s: State, i: int)
    requires i in s.streams && s.streams[i] == Entered
    ensures CanBeLive(s, i)
    ensures exists t: State :: Leads(s, 1, t) && t.counter == s.counter + 1
  {
    var t := Step(s, Add(i));
    assert Leads(s, 0, s) && Enabled(s, Add(i));
    assert Leads(s, 1, t);
  }

  ghost predicate CanCountAgain(s: State) {
    exists n: nat, t: State :: Leads(s, n, t) && t.counter > 0
  }

  /** Main has gone on and the counter is zero: it stays zero for ever if and only
      if no stream stands between its shutdown test and the wait group. */
  lemma CountsAgainIff(n: nat, s: State)
    requires Leads(INITIAL, n, s) && s.waited && s.counter == 0
    ensures CanCountAgain(s) <==> exists i :: i in s.streams && s.streams[i] == Entered
  {
    Balanced(n, s);
    if i :| i in s.streams && s.streams[i] == Entered {
      JoinsNext(s, i);
    } else if CanCountAgain(s) {
      var k: nat, t: State :| Leads(s, k, t) && t.counter > 0;
      WaitedIsShut(n, s);
      BalancedFrom(s, k, t);
      ZeroIff(t);
      LeadsShut(s, k, t);
      assert false;
    }
  }

  /** It does happen: main goes on, and a stream that had entered joins. */
  lemma NotWaitedFor()
    ensures exists n: nat, s: State :: Leads(INITIAL, n, s) && s.waited && s.counter == 0 && CanCountAgain(s)
  {
    var s1 := INITIAL.(streams := map[1 := Entered]);
    var s2 := s1.(shutdown := true);
    var s3 := s2.(waited := true);
    assert Leads(INITIAL, 0, INITIAL);
    assert Enabled(INITIAL, Enter(1)) && s1 == Step(INITIAL, Enter(1)) && Leads(INITIAL, 1, s1);
    assert Enabled(s1, Shutdown) && s2 == Step(s1, Shutdown) && Leads(INITIAL, 2, s2);
    assert Enabled(s2, WaitReturns) && s3 == Step(s2, WaitReturns) && Leads(INITIAL, 3, s3);
    assert s3.streams[1] == Entered;
    CountsAgainIff(3, s3);
  }
}
