/**
 * Totals of counter maps, `Object.values(m).reduce((x, y) => x + y, 0)`.
 * The order in which keys are visited does not matter; the total is defined
 * by removing an arbitrary key and proved independent of the choice.
 */
module MapTotals {

  ghost function Total(m: map<string, nat>): (t: nat)
    ensures t == 0 <==> forall k :: k in m ==> m[k] == 0
    decreases |m|
  {
    if m == map[] then 0
    else
      var k :| k in m;
      assert |m - {k}| < |m| by {
        assert m.Keys == (m - {k}).Keys + {k};
      }
      m[k] + Total(m - {k})
  }

  /** Removing any key takes exactly its value off the total. */
  lemma TotalRemove(m: map<string, nat>, k: string)
    requires k in m
    ensures Total(m) == m[k] + Total(m - {k})
    decreases |m|
  {
    var j :| j in m && Total(m) == m[j] + Total(m - {j});
    if j != k {
      assert m.Keys == (m - {k}).Keys + {k};
      assert (m - {j}).Keys == (m - {j} - {k}).Keys + {k};
      TotalRemove(m - {j}, k);
      TotalRemove(m - {k}, j);
      assert m - {j} - {k} == m - {k} - {j};
    }
  }

  /** Every single count is at most the total. */
  lemma EntryAtMostTotal(m: map<string, nat>, k: string)
    requires k in m
    ensures m[k] <= Total(m)
  {
    TotalRemove(m, k);
  }

  /** The reduction loop: visits every key once, adding its value. */
  method SumValues(m: map<string, nat>) returns (total: nat)
    ensures total == Total(m)
  {
    total := 0;
    var rest := m;
    while rest != map[]
      invariant total + Total(rest) == Total(m)
      decreases |rest|
    {
      var k :| k in rest;
      TotalRemove(rest, k);
      assert rest.Keys == (rest - {k}).Keys + {k};
      total := total + rest[k];
      rest := rest - {k};
    }
  }
}
