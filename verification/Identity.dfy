/** Who a TLS key stands for: registrations look a key prefix up and insert a row
    when there is none, without a lock. */
module Identity {
  import opened Wrappers
  import opened Tables

  datatype UserNode = UserNode(id: int, tlsPubKeyPre: string, userIdKey: string, alias: string)

  /** GetUserIdKey: First by prefix. */
  function Resolve(users: map<int, UserNode>, pre: string): Option<int> {
    First(set i | i in users && users[i].tlsPubKeyPre == pre)
  }

  // ------------------------------------------------ concurrent registrations

  /** waiting: registrations that will insert, by prefix; pending: rows that have
      been given their key and are not committed yet; holding: registrations that
      will save the row they have loaded, whole. */
  datatype State = State(users: map<int, UserNode>, nextId: int, waiting: map<int, string>,
                         pending: map<int, UserNode>, holding: map<int, UserNode>)

  const INITIAL: State := State(map[], 1, map[], map[], map[])

  datatype Event =
    | Miss(g: int, pre: string)                         // no row, or the query fails
    | Hit(g: int, pre: string, alias: string)
    | Assign(g: int, userIdKey: string, alias: string)  // the insertion gets its key
    | Publish(g: int)                                   // and becomes visible
    | SaveAlias(g: int)
    | GiveUp(g: int)                                    // key, signature or database refuse

  predicate Idle(s: State, g: int) { g !in s.waiting && g !in s.pending && g !in s.holding }

  predicate Enabled(s: State, e: Event) {
    match e
    case Miss(g, _) => Idle(s, g)
    case Hit(g, pre, _) => Idle(s, g) && Resolve(s.users, pre).Some? && Resolve(s.users, pre).value in s.users
    case Assign(g, _, _) => g in s.waiting && g !in s.pending
    case Publish(g) => g in s.pending
    case SaveAlias(g) => g in s.holding
    case GiveUp(_) => true
  }

  function Step(s: State, e: Event): State
    requires Enabled(s, e)
  {
    match e
    case Miss(g, pre) => s.(waiting := s.waiting[g := pre])
    case Hit(g, pre, alias) =>
      s.(holding := s.holding[g := s.users[Resolve(s.users, pre).value].(alias := alias)])
    case Assign(g, key, alias) =>
      s.(pending := s.pending[g := UserNode(s.nextId, s.waiting[g], key, alias)],
         nextId := s.nextId + 1, waiting := s.waiting - {g})
    case Publish(g) =>
      s.(users := s.users[s.pending[g].id := s.pending[g]], pending := s.pending - {g})
    case SaveAlias(g) =>
      s.(users := s.users[s.holding[g].id := s.holding[g]], holding := s.holding - {g})
    case GiveUp(g) =>
      s.(waiting := s.waiting - {g}, pending := s.pending - {g}, holding := s.holding - {g})
  }

  /** u is the row i, its alias aside. */
  predicate SameUser(users: map<int, UserNode>, i: int, u: UserNode) {
    i in users && users[i].id == u.id == i && users[i].tlsPubKeyPre == u.tlsPubKeyPre && users[i].userIdKey == u.userIdKey
  }

  /** A row about to become visible has a key that no visible row has. */
  predicate PendingOk(s: State, g: int)
    requires g in s.pending
  {
    s.pending[g].id < s.nextId && s.pending[g].id !in s.users
  }

  predicate Inv(s: State) {
    && (forall i :: i in s.users ==> i < s.nextId && s.users[i].id == i)
    && (forall g :: g in s.holding ==> SameUser(s.users, s.holding[g].id, s.holding[g]))
    && (forall g :: g in s.pending ==> PendingOk(s, g))
    && (forall g, h :: g in s.pending && h in s.pending && s.pending[g].id == s.pending[h].id ==> g == h)
  }

  ghost predicate Leads(s: State, n: nat, t: State) {
    if n == 0 then s == t
    else exists m, e :: Leads(s, n - 1, m) && Enabled(m, e) && t == Step(m, e)
  }

  /** A step leaves every row in place with its prefix and key. */
  lemma StepKeeps(s: State, e: Event)
    requires Inv(s) && Enabled(s, e)
    ensures Inv(Step(s, e)) && forall i :: i in s.users ==> SameUser(Step(s, e).users, i, s.users[i])
  {
    var t := Step(s, e);
    forall g | g in t.pending ensures PendingOk(t, g) {
      if g in s.pending { assert PendingOk(s, g); }
    }
  }

  lemma ResolveMeans(users: map<int, UserNode>, pre: string)
    ensures var r := Resolve(users, pre);
      && (r.None? <==> forall i :: i in users ==> users[i].tlsPubKeyPre != pre)
      && (r.Some? ==> r.value in users && users[r.value].tlsPubKeyPre == pre)
      && (r.Some? ==> forall i :: i in users && users[i].tlsPubKeyPre == pre ==> r.value <= i)
  {
    var ids := set i | i in users && users[i].tlsPubKeyPre == pre;
    assert forall i :: i in users && users[i].tlsPubKeyPre == pre ==> i in ids;
  }

  /** No row with this prefix and a lower key is still to become visible. */
  predicate Firm(s: State, pre: string, id: int) {
    forall g :: g in s.pending && s.pending[g].tlsPubKeyPre == pre ==> id < s.pending[g].id
  }

  lemma StepStable(s: State, e: Event, pre: string, id: int)
    requires Inv(s) && Enabled(s, e) && Resolve(s.users, pre) == Some(id) && Firm(s, pre, id)
    ensures var t := Step(s, e);
      Resolve(t.users, pre) == Some(id) && Firm(t, pre, id) && id in s.users && SameUser(t.users, id, s.users[id])
  {
    StepKeeps(s, e);
    ResolveMeans(s.users, pre);
    ResolveMeans(Step(s, e).users, pre);
  }

  /** The invariant holds from the empty table on, and rows stay. */
  lemma {:induction false} LeadsInv(s: State, n: nat, t: State)
    requires Inv(s) && Leads(s, n, t)
    ensures Inv(t) && forall i :: i in s.users ==> SameUser(t.users, i, s.users[i])
  {
    if n > 0 {
      var m, e :| Leads(s, n - 1, m) && Enabled(m, e) && t == Step(m, e);
      LeadsInv(s, n - 1, m);
      StepKeeps(m, e);
    }
  }

  lemma {:induction false} FirmForever(s: State, n: nat, t: State, pre: string, id: int)
    requires Inv(s) && Leads(s, n, t) && Resolve(s.users, pre) == Some(id) && Firm(s, pre, id)
    ensures Resolve(t.users, pre) == Some(id) && Firm(t, pre, id)
  {
    if n > 0 {
      var m, e :| Leads(s, n - 1, m) && Enabled(m, e) && t == Step(m, e);
      LeadsInv(s, n - 1, m);
      FirmForever(s, n - 1, m, pre, id);
      StepStable(m, e, pre, id);
    }
  }

  /** The prefix resolves to this user, with this key, in every later state. */
  ghost predicate Forever(s: State, pre: string, id: int) {
    forall n: nat, t: State :: Leads(s, n, t) ==>
      Resolve(t.users, pre) == Some(id) && id in s.users && SameUser(t.users, id, s.users[id])
  }

  /** A prefix that resolves to a user resolves to the same user, with the same key,
      in every later state, if and only if no row with that prefix and a lower key
      is still to become visible; duplicates with higher keys, failing lookups and
      whole-row saves of stale rows do no harm. */
  lemma ResolvesForeverIff(n: nat, s: State, pre: string, id: int)
    requires Leads(INITIAL, n, s) && Resolve(s.users, pre) == Some(id)
    ensures Forever(s, pre, id) <==> Firm(s, pre, id)
  {
    LeadsInv(INITIAL, n, s);
    ResolveMeans(s.users, pre);
    if Firm(s, pre, id) {
      forall k: nat, t: State | Leads(s, k, t)
        ensures Resolve(t.users, pre) == Some(id) && SameUser(t.users, id, s.users[id]) {
        FirmForever(s, k, t, pre, id);
        LeadsInv(s, k, t);
      }
    } else {
      var g :| g in s.pending && s.pending[g].tlsPubKeyPre == pre && s.pending[g].id <= id;
      LaterLower(s, g, pre, id);
    }
  }

  lemma LaterLower(s: State, g: int, pre: string, id: int)
    requires Inv(s) && Resolve(s.users, pre) == Some(id)
    requires g in s.pending && s.pending[g].tlsPubKeyPre == pre && s.pending[g].id <= id
    ensures !Forever(s, pre, id)
  {
    var t := Step(s, Publish(g));
    assert PendingOk(s, g);
    ResolveMeans(s.users, pre);
    ResolveMeans(t.users, pre);
    assert t.users[s.pending[g].id].tlsPubKeyPre == pre;
    assert Leads(s, 0, s);
    assert Leads(s, 1, t);
  }

  /** It does happen: two registrations of one prefix get keys 1 and 2, the second
      is committed first, and users change when the first is. */
  lemma LateCommit(pre: string)
    ensures exists n: nat, s: State :: Leads(INITIAL, n, s) && Resolve(s.users, pre) == Some(2) && !Forever(s, pre, 2)
  {
    var one, two := UserNode(1, pre, "a", ""), UserNode(2, pre, "b", "");
    var s1 := INITIAL.(waiting := map[1 := pre]);
    var s2 := s1.(waiting := map[1 := pre, 2 := pre]);
    var s3 := s2.(pending := map[1 := one], nextId := 2, waiting := map[2 := pre]);
    var s4 := s3.(pending := map[1 := one, 2 := two], nextId := 3, waiting := map[]);
    var s5 := s4.(users := map[2 := two], pending := map[1 := one]);
    assert Leads(INITIAL, 0, INITIAL);
    StepTo(INITIAL, 0, INITIAL, Miss(1, pre), s1);
    StepTo(INITIAL, 1, s1, Miss(2, pre), s2);
    assert s2.waiting - {1} == s3.waiting && s3.waiting - {2} == s4.waiting && s4.pending - {2} == s5.pending;
    StepTo(INITIAL, 2, s2, Assign(1, "a", ""), s3);
    StepTo(INITIAL, 3, s3, Assign(2, "b", ""), s4);
    StepTo(INITIAL, 4, s4, Publish(2), s5);
    ResolveMeans(s5.users, pre);
    assert s5.users[2].tlsPubKeyPre == pre;
    ResolvesForeverIff(5, s5, pre, 2);
    assert s5.pending[1].id == 1;
  }

  lemma StepTo(s: State, n: nat, m: State, e: Event, t: State)
    requires Leads(s, n, m) && Enabled(m, e) && t == Step(m, e)
    ensures Leads(s, n + 1, t)
  {
    assert Leads(s, n + 1 - 1, m);
  }

  // ------------------------------------------------ the methods

  class Users {
    var users: map<int, UserNode>
    var nextId: int

    predicate Valid()
      reads this
    {
      forall i :: i in users ==> i < nextId && users[i].id == i
    }

    constructor ()
      ensures Valid() && users == map[]
    {
      users, nextId := map[], 1;
    }

    method GetUserIdKey(pre: string) returns (id: Option<int>)
      ensures id.None? <==> forall i :: i in users ==> users[i].tlsPubKeyPre != pre
      ensures id.Some? ==>
        && id.value in users && users[id.value].tlsPubKeyPre == pre
        && forall i :: i in users && users[i].tlsPubKeyPre == pre ==> id.value <= i
    {
      id := Resolve(users, pre);
      ResolveMeans(users, pre);
    }

    /** verified tells whether key and signature are accepted, saved whether the
        database takes the one row that is written.  Only a failed insertion is an
        error; a new alias that is not saved is not noticed. */
    method RegistTlsKey(pre: string, userIdKey: string, alias: string, verified: bool, saved: bool) returns (ok: bool)
      requires Valid()
      modifies this
      ensures Valid()
      ensures ok <==> (verified && saved) || Resolve(old(users), pre).Some?
      ensures ok <==> Resolve(users, pre).Some?
      ensures var r := Resolve(old(users), pre); r.Some? ==>
        && r.value in old(users) && Resolve(users, pre) == r && nextId == old(nextId)
        && users == if saved then old(users)[r.value := old(users)[r.value].(alias := alias)] else old(users)
      ensures Resolve(old(users), pre).None? && ok ==>
        users == old(users)[old(nextId) := UserNode(old(nextId), pre, userIdKey, alias)]
      ensures !ok ==> users == old(users)
    {
      var found := Resolve(users, pre);
      ResolveMeans(users, pre);
      ghost var before := users;
      if found.Some? {
        if users[found.value].alias != alias && saved {
          users := users[found.value := users[found.value].(alias := alias)];
        }
        ResolveMeans(users, pre);
        assert Resolve(users, pre) == found by {
          var r := Resolve(users, pre);
          assert found.value in users && users[found.value].tlsPubKeyPre == pre;
          assert r.Some? && r.value in before && before[r.value].tlsPubKeyPre == pre;
        }
        assert saved ==> users == before[found.value := before[found.value].(alias := alias)];
        return true;
      }
      if !verified || !saved {
        return false;
      }
      users := users[nextId := UserNode(nextId, pre, userIdKey, alias)];
      assert users[nextId].tlsPubKeyPre == pre;
      ResolveMeans(users, pre);
      nextId := nextId + 1;
      ok := true;
    }
  }
}
