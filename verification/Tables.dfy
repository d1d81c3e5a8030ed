/** What the models need of a database table: the lowest primary key of a
    selection, and sums over the rows. */
module Tables {
  import opened Wrappers

  lemma HasMin(keys: set<int>)
    requires keys != {}
    ensures exists m :: m in keys && forall k :: k in keys ==> m <= k
  {
    if !exists x :: x in keys {
      assert false;
    }
    var x :| x in keys;
    var rest := keys - {x};
    if rest != {} {
      HasMin(rest);
      var m :| m in rest && forall k :: k in rest ==> m <= k;
      var best := if m <= x then m else x;
      forall k | k in keys ensures best <= k {
        assert k == x || k in rest;
      }
    } else {
      forall k | k in keys ensures x <= k {
        assert k == x || k in rest;
      }
    }
  }

  /** gorm's First: the selected row with the lowest primary key. */
  function First(keys: set<int>): (r: Option<int>)
    ensures r.None? <==> keys == {}
    ensures r.Some? ==> r.value in keys && forall k :: k in keys ==> r.value <= k
  {
    if keys == {} then None
    else
      HasMin(keys);
      var m :| m in keys && forall k :: k in keys ==> m <= k;
      Some(m)
  }

  /** The sum of a column. */
  ghost function Sum(m: map<int, int>): int
    decreases |m|
  {
    match First(m.Keys)
    case None => 0
    case Some(k) =>
      assert |m - {k}| < |m| by { SizeMinus(m, k); }
      m[k] + Sum(m - {k})
  }

  lemma SizeMinus(m: map<int, int>, k: int)
    requires k in m
    ensures |m - {k}| == |m| - 1
  {
    assert (m - {k}).Keys == m.Keys - {k};
    assert |m.Keys| == |m| && |(m - {k}).Keys| == |m - {k}|;
  }

  /** A sum does not depend on the order of the rows. */
  lemma {:induction false} SumTakeOut(m: map<int, int>, k: int)
    requires k in m
    ensures Sum(m) == m[k] + Sum(m - {k})
    decreases |m|
  {
    SizeMinus(m, k);
    var j := First(m.Keys).value;
    if j != k {
      SizeMinus(m, j);
      SumTakeOut(m - {j}, k);
      SumTakeOut(m - {k}, j);
      assert m - {j} - {k} == m - {k} - {j};
    }
  }

  /** Writing one row changes the sum by the difference. */
  lemma SumUpdate(m: map<int, int>, k: int, v: int)
    ensures Sum(m[k := v]) == Sum(m) - (if k in m then m[k] else 0) + v
  {
    var m' := m[k := v];
    SumTakeOut(m', k);
    if k in m {
      SumTakeOut(m, k);
      assert m' - {k} == m - {k};
    } else {
      assert m' - {k} == m;
    }
  }

  /** A new row adds its value to the sum and one to the count. */
  lemma SumInsert(m: map<int, int>, k: int, v: int)
    requires k !in m
    ensures Sum(m[k := v]) == Sum(m) + v && |m[k := v]| == |m| + 1
  {
    SumUpdate(m, k, v);
    SizeMinus(m[k := v], k);
    assert m[k := v] - {k} == m;
  }

  /** Sums of row-wise comparable columns compare. */
  lemma {:induction false} SumMono(m: map<int, int>, n: map<int, int>)
    requires m.Keys == n.Keys
    requires forall k :: k in m ==> m[k] <= n[k]
    ensures Sum(m) <= Sum(n)
    decreases |m|
  {
    if m.Keys != {} {
      var k := First(m.Keys).value;
      SumTakeOut(m, k);
      SumTakeOut(n, k);
      SizeMinus(m, k);
      SumMono(m - {k}, n - {k});
    }
  }

  /** A column without negative values: its sum covers each of them, and is zero
      exactly if all are. */
  lemma {:induction false} SumNonNegative(m: map<int, int>)
    requires forall k :: k in m ==> m[k] >= 0
    ensures forall k :: k in m ==> m[k] <= Sum(m)
    ensures Sum(m) >= 0 && (Sum(m) == 0 <==> forall k :: k in m ==> m[k] == 0)
    decreases |m|
  {
    if m.Keys != {} {
      var k := First(m.Keys).value;
      SumTakeOut(m, k);
      SizeMinus(m, k);
      SumNonNegative(m - {k});
      forall j | j in m ensures m[j] <= Sum(m) && (Sum(m) == 0 ==> m[j] == 0) {
        assert j != k ==> (m - {k})[j] == m[j];
      }
    }
  }

  /** The sum of a column of sums. */
  lemma {:induction false} SumAdd(x: map<int, int>, y: map<int, int>, z: map<int, int>)
    requires x.Keys == y.Keys == z.Keys
    requires forall k :: k in z ==> z[k] == x[k] + y[k]
    ensures Sum(z) == Sum(x) + Sum(y)
    decreases |z|
  {
    if z.Keys != {} {
      var k := First(z.Keys).value;
      SumTakeOut(x, k);
      SumTakeOut(y, k);
      SizeMinus(z, k);
      SumAdd(x - {k}, y - {k}, z - {k});
    }
  }

  /** The sum of a column scaled by a constant. */
  lemma {:induction false} SumScale(a: int, x: map<int, int>, z: map<int, int>)
    requires x.Keys == z.Keys
    requires forall k :: k in z ==> z[k] == a * x[k]
    ensures Sum(z) == a * Sum(x)
    decreases |z|
  {
    if z.Keys != {} {
      var k := First(z.Keys).value;
      SumTakeOut(x, k);
      SizeMinus(z, k);
      SumScale(a, x - {k}, z - {k});
      Distribute(a, x[k], Sum(x - {k}));
    }
  }

  /** Row-wise bounds add up. */
  lemma Between(owed: map<int, int>, payouts: map<int, int>, net: map<int, int>)
    requires owed.Keys == payouts.Keys == net.Keys
    requires forall k :: k in net ==> 1000 * owed[k] - 999 * payouts[k] <= net[k] <= 1000 * owed[k]
    ensures 1000 * Sum(owed) - 999 * Sum(payouts) <= Sum(net) <= 1000 * Sum(owed)
  {
    var high := map k | k in net :: 1000 * owed[k];
    var lost := map k | k in net :: -999 * payouts[k];
    var low := map k | k in net :: high[k] + lost[k];
    SumMono(low, net);
    SumMono(net, high);
    SumScale(1000, owed, high);
    SumScale(-999, payouts, lost);
    SumAdd(high, lost, low);
  }

  lemma Distribute(a: int, p: int, q: int)
    ensures a * (p + q) == a * p + a * q
  {
  }
}
