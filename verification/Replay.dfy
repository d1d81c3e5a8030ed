/** Every reconnect subscribes from the same settle index, so the monitor is fed
    the same settled invoices again and again. */
module Replay {
  function Apply<S, E>(f: (S, E) -> S, s: S, log: seq<E>): S
    decreases log
  {
    if log == [] then s else Apply(f, f(s, log[0]), log[1..])
  }

  /** An event that has been handled changes nothing any more, whatever has been
      handled since. */
  ghost predicate Absorbing<S(!new), E(!new)>(f: (S, E) -> S) {
    && (forall s, e :: f(f(s, e), e) == f(s, e))
    && (forall s, e, e' :: f(s, e) == s ==> f(f(s, e'), e) == f(s, e'))
  }

  ghost predicate Done<S, E>(f: (S, E) -> S, s: S, seen: set<E>) {
    forall e :: e in seen ==> f(s, e) == s
  }

  /** The log without the events seen before. */
  function Fresh<E(==)>(log: seq<E>, seen: set<E>): seq<E>
    decreases log
  {
    if log == [] then []
    else if log[0] in seen then Fresh(log[1..], seen)
    else [log[0]] + Fresh(log[1..], seen + {log[0]})
  }

  lemma {:induction false} FreshSuffices<S(!new), E(!new)>(f: (S, E) -> S, s: S, log: seq<E>, seen: set<E>)
    requires Absorbing(f) && Done(f, s, seen)
    ensures Apply(f, s, log) == Apply(f, s, Fresh(log, seen))
    decreases log
  {
    if log != [] {
      var e := log[0];
      if e in seen {
        FreshSuffices(f, s, log[1..], seen);
      } else {
        var s1 := f(s, e);
        assert Done(f, s1, seen + {e});
        FreshSuffices(f, s1, log[1..], seen + {e});
        var rest := Fresh(log[1..], seen + {e});
        assert ([e] + rest)[1..] == rest;
      }
    }
  }

  /** Duplicates do not matter: handling a log leaves what handling the first
      occurrences leaves. */
  lemma DuplicatesIgnored<S(!new), E(!new)>(f: (S, E) -> S, s: S, log: seq<E>)
    requires Absorbing(f)
    ensures Apply(f, s, log) == Apply(f, s, Fresh(log, {}))
  {
    FreshSuffices(f, s, log, {});
  }

  lemma {:induction false} ApplyAppend<S, E>(f: (S, E) -> S, s: S, a: seq<E>, b: seq<E>)
    ensures Apply(f, s, a + b) == Apply(f, Apply(f, s, a), b)
    decreases a
  {
    if a == [] {
      assert a + b == b;
    } else {
      assert (a + b)[1..] == a[1..] + b;
      ApplyAppend(f, f(s, a[0]), a[1..], b);
    }
  }

  lemma {:induction false} ApplyMakesDone<S(!new), E(!new)>(f: (S, E) -> S, s: S, log: seq<E>, seen: set<E>)
    requires Absorbing(f) && Done(f, s, seen)
    ensures Done(f, Apply(f, s, log), seen + set e | e in log)
    decreases log
  {
    if log != [] {
      var s1 := f(s, log[0]);
      assert Done(f, s1, seen + {log[0]});
      ApplyMakesDone(f, s1, log[1..], seen + {log[0]});
      assert log == [log[0]] + log[1..];
    }
  }

  lemma {:induction false} ApplyDone<S(!new), E(!new)>(f: (S, E) -> S, s: S, log: seq<E>, seen: set<E>)
    requires Done(f, s, seen) && forall k :: 0 <= k < |log| ==> log[k] in seen
    ensures Apply(f, s, log) == s
    decreases log
  {
    if log != [] {
      assert f(s, log[0]) == s;
      ApplyDone(f, s, log[1..], seen);
    }
  }

  /** What the monitor is fed over a series of connections, each of which
      replays the node's history from the start up to some point. */
  function Connections<E>(history: seq<E>, cuts: seq<nat>): seq<E>
    requires forall k :: 0 <= k < |cuts| ==> cuts[k] <= |history|
    decreases cuts
  {
    if cuts == [] then [] else history[..cuts[0]] + Connections(history, cuts[1..])
  }

  function Furthest(cuts: seq<nat>): nat
    decreases cuts
  {
    if cuts == [] then 0
    else if cuts[0] >= Furthest(cuts[1..]) then cuts[0] else Furthest(cuts[1..])
  }

  lemma {:induction false} ReconnectFrom<S(!new), E(!new)>(f: (S, E) -> S, s: S, history: seq<E>, at: nat, cuts: seq<nat>)
    requires Absorbing(f) && at <= |history| && forall k :: 0 <= k < |cuts| ==> cuts[k] <= |history|
    ensures Furthest([at] + cuts) <= |history|
    ensures Apply(f, Apply(f, s, history[..at]), Connections(history, cuts))
         == Apply(f, s, history[..Furthest([at] + cuts)])
    decreases cuts
  {
    assert ([at] + cuts)[1..] == cuts;
    if cuts != [] {
      var c, s1 := cuts[0], Apply(f, s, history[..at]);
      ApplyAppend(f, s1, history[..c], Connections(history, cuts[1..]));
      var seen := set e | e in history[..at];
      ApplyMakesDone(f, s, history[..at], {});
      assert {} + seen == seen;
      var next := if c <= at then at else c;
      if c <= at {
        ApplyDone(f, s1, history[..c], seen);
      } else {
        assert history[..c] == history[..at] + history[at..c];
        ApplyAppend(f, s1, history[..at], history[at..c]);
        ApplyDone(f, s1, history[..at], seen);
        ApplyAppend(f, s, history[..at], history[at..c]);
      }
      ReconnectFrom(f, s, history, next, cuts[1..]);
      assert ([next] + cuts[1..])[1..] == cuts[1..];
    }
  }

  /** However often the connection is lost, the outcome is that of one connection
      that got as far as the longest. */
  lemma ReconnectsIgnored<S(!new), E(!new)>(f: (S, E) -> S, s: S, history: seq<E>, cuts: seq<nat>)
    requires Absorbing(f) && forall k :: 0 <= k < |cuts| ==> cuts[k] <= |history|
    ensures Furthest(cuts) <= |history|
    ensures Apply(f, s, Connections(history, cuts)) == Apply(f, s, history[..Furthest(cuts)])
  {
    ReconnectFrom(f, s, history, 0, cuts);
    assert ([0] + cuts)[1..] == cuts;
  }

  /** Fresh keeps exactly the events not seen, each once. */
  lemma {:induction false} FreshMeans<E>(log: seq<E>, seen: set<E>, e: E)
    ensures multiset(Fresh(log, seen))[e] == if e in log && e !in seen then 1 else 0
    decreases log
  {
    if log != [] {
      assert log == [log[0]] + log[1..];
      if log[0] in seen {
        FreshMeans(log[1..], seen, e);
      } else {
        FreshMeans(log[1..], seen + {log[0]}, e);
      }
    }
  }

  /** The longest connection. */
  lemma {:induction false} FurthestMeans(cuts: seq<nat>)
    ensures forall k :: 0 <= k < |cuts| ==> cuts[k] <= Furthest(cuts)
    ensures cuts != [] ==> Furthest(cuts) in cuts
  {
    if cuts != [] {
      FurthestMeans(cuts[1..]);
      assert cuts == [cuts[0]] + cuts[1..];
    }
  }
}
