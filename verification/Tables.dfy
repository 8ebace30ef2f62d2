/** SQL tables as finite maps: primary-key inserts, ORDER BY, and the staging of buffers. */
module Tables {

  /** INSERT ... ON CONFLICT DO NOTHING. */
  function InsertOrIgnore<K, V>(t: map<K, V>, k: K, v: V): map<K, V> {
    if k in t then t else t[k := v]
  }

  /** The rows with key below `n`, ascending by key. */
  function OrderBy<V>(t: map<nat, V>, n: nat): seq<V> {
    if n == 0 then []
    else OrderBy(t, n - 1) + if n - 1 in t then [t[n - 1]] else []
  }

  lemma {:induction false} OrderByAgree<V>(t: map<nat, V>, t': map<nat, V>, n: nat)
    requires forall k: nat :: k < n ==> (k in t <==> k in t') && (k in t ==> t[k] == t'[k])
    ensures OrderBy(t, n) == OrderBy(t', n)
  {
    if n > 0 {
      OrderByAgree(t, t', n - 1);
    }
  }

  lemma {:induction false} OrderByGap<V>(t: map<nat, V>, a: nat, b: nat)
    requires a <= b && forall k :: a <= k < b ==> k !in t
    ensures OrderBy(t, b) == OrderBy(t, a)
  {
    if a < b {
      OrderByGap(t, a, b - 1);
    }
  }

  /** A number above every key. */
  ghost function Above(keys: set<nat>): (n: nat)
    ensures forall k :: k in keys ==> k < n
  {
    if keys == {} then 0
    else
      var k :| k in keys;
      var rest := Above(keys - {k});
      assert forall j :: j in keys ==> j == k || j in keys - {k};
      if k < rest then rest else k + 1
  }

  /** SELECT ... ORDER BY key ASC. */
  ghost function SelectOrdered<V>(t: map<nat, V>): seq<V> {
    OrderBy(t, Above(t.Keys))
  }

  lemma SelectIsOrderBy<V>(t: map<nat, V>, n: nat)
    requires forall k :: k in t ==> k < n
    ensures SelectOrdered(t) == OrderBy(t, n)
  {
    var m := Above(t.Keys);
    if m <= n {
      OrderByGap(t, m, n);
    } else {
      OrderByGap(t, n, m);
    }
  }

  /** The next entry of an iteration, whichever it is. */
  method PickOne<T(==)>(s: set<T>) returns (x: T)
    requires s != {}
    ensures x in s
  {
    x :| x in s;
  }
}
