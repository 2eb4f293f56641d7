/** The SQL the aggregate queries are made of: GROUP BY with COUNT(*), and joins that keep every
    pair of matching rows. */
module Joins {
  import opened Options
  import opened Sequences

  // SELECT k, COUNT(*) ... GROUP BY k, over the column of keys
  function GroupCount<K(==)>(keys: seq<K>): seq<(K, nat)> {
    if keys == [] then [] else Bump(GroupCount(keys[..|keys| - 1]), keys[|keys| - 1])
  }

  function Bump<K(==)>(groups: seq<(K, nat)>, k: K): seq<(K, nat)> {
    if groups == [] then [(k, 1)]
    else if groups[0].0 == k then [(k, groups[0].1 + 1)] + groups[1..]
    else [groups[0]] + Bump(groups[1..], k)
  }

  // a JOIN b ON ..., in the order of a
  function InnerJoin<A, B>(a: seq<A>, b: seq<B>, on: (A, B) -> bool): seq<(A, B)> {
    if a == [] then [] else Pairs(a[0], b, on) + InnerJoin(a[1..], b, on)
  }

  function Pairs<A, B>(x: A, b: seq<B>, on: (A, B) -> bool): seq<(A, B)> {
    if b == [] then [] else (if on(x, b[0]) then [(x, b[0])] else []) + Pairs(x, b[1..], on)
  }

  // a LEFT JOIN (grouped subquery) ON ...: a row without a partner keeps one row, with NULL
  function LeftJoin<A, K>(a: seq<A>, groups: seq<(K, nat)>, on: (A, K) -> bool): seq<(A, Option<nat>)> {
    if a == [] then [] else Partners(a[0], groups, on) + LeftJoin(a[1..], groups, on)
  }

  function Partners<A, K>(x: A, groups: seq<(K, nat)>, on: (A, K) -> bool): seq<(A, Option<nat>)> {
    var found := Matches(x, groups, on);
    if found == [] then [(x, None)] else found
  }

  function Matches<A, K>(x: A, groups: seq<(K, nat)>, on: (A, K) -> bool): seq<(A, Option<nat>)> {
    if groups == [] then []
    else (if on(x, groups[0].0) then [(x, Some(groups[0].1))] else []) + Matches(x, groups[1..], on)
  }

  function Coalesce(n: Option<nat>): nat {
    if n.Some? then n.value else 0
  }

  function Map<A, B>(s: seq<A>, f: A -> B): (r: seq<B>)
    ensures |r| == |s| && forall i :: 0 <= i < |s| ==> r[i] == f(s[i])
  {
    seq(|s|, i requires 0 <= i < |s| => f(s[i]))
  }

  /* ---------- direct counting ---------- */

  function Occurs<K(==)>(keys: seq<K>, k: K): nat {
    if keys == [] then 0 else Occurs(keys[..|keys| - 1], k) + if keys[|keys| - 1] == k then 1 else 0
  }

  // k occurs as often as rows are chosen, when the chosen rows are those whose key is k
  lemma {:induction false} OccursIsCardinality<A, K>(s: seq<A>, keys: seq<K>, k: K, chosen: set<A>)
    requires Distinct(s) && |keys| == |s|
    requires forall i :: 0 <= i < |s| ==> (s[i] in chosen <==> keys[i] == k)
    requires forall x :: x in chosen ==> x in s
    ensures Occurs(keys, k) == |chosen|
  {
    if s == [] {
      assert chosen == {};
    } else {
      var n := |s| - 1;
      assert s == s[..n] + [s[n]] && s[n] !in s[..n];
      OccursIsCardinality(s[..n], keys[..n], k, chosen - {s[n]});
      if keys[n] != k { assert chosen - {s[n]} == chosen; }
    }
  }

  /* ---------- sums over a keyed table ---------- */

  function Total(ns: seq<nat>): nat {
    if ns == [] then 0 else Total(ns[..|ns| - 1]) + ns[|ns| - 1]
  }

  lemma {:induction false} TotalBump(a: seq<nat>, b: seq<nat>, j: nat)
    requires |a| == |b|
    requires forall i :: 0 <= i < |a| ==> b[i] == a[i] + if i == j then 1 else 0
    ensures Total(b) == Total(a) + if j < |a| then 1 else 0
  {
    if a != [] { TotalBump(a[..|a| - 1], b[..|b| - 1], j); }
  }

  lemma {:induction false} TotalZero(ns: seq<nat>)
    requires forall i :: 0 <= i < |ns| ==> ns[i] == 0
    ensures Total(ns) == 0
  {
    if ns != [] { TotalZero(ns[..|ns| - 1]); }
  }

  /** Counting keys id by id counts each key that names some id exactly once. */
  lemma {:induction false} TotalOccurs<K>(ids: seq<K>, keys: seq<K>, ns: seq<nat>, known: seq<bool>)
    requires Distinct(ids) && |ns| == |ids| && |known| == |keys|
    requires forall i :: 0 <= i < |ids| ==> ns[i] == Occurs(keys, ids[i])
    requires forall j :: 0 <= j < |keys| ==> (known[j] <==> keys[j] in ids)
    ensures Total(ns) == Occurs(known, true)
  {
    if keys == [] {
      TotalZero(ns);
    } else {
      var n := |keys| - 1;
      var before := seq(|ids|, i requires 0 <= i < |ids| => Occurs(keys[..n], ids[i]));
      TotalOccurs(ids, keys[..n], before, known[..n]);
      if keys[n] in ids {
        var j :| 0 <= j < |ids| && ids[j] == keys[n];
        TotalBump(before, ns, j);
      } else {
        TotalBump(before, ns, |ids|);
      }
    }
  }

  lemma {:induction false} AllTrue(known: seq<bool>)
    requires forall i :: 0 <= i < |known| ==> known[i]
    ensures Occurs(known, true) == |known|
  {
    if known != [] { AllTrue(known[..|known| - 1]); }
  }

  // When every key names an id, nothing is lost
  lemma TotalIsAll<K>(ids: seq<K>, keys: seq<K>, ns: seq<nat>)
    requires Distinct(ids) && |ns| == |ids|
    requires forall i :: 0 <= i < |ids| ==> ns[i] == Occurs(keys, ids[i])
    requires forall j :: 0 <= j < |keys| ==> keys[j] in ids
    ensures Total(ns) == |keys|
  {
    var known := seq(|keys|, j => true);
    TotalOccurs(ids, keys, ns, known);
    AllTrue(known);
  }

  /* ---------- what the joins return ---------- */

  function Lookup<K(==)>(groups: seq<(K, nat)>, k: K): nat {
    if groups == [] then 0 else if groups[0].0 == k then groups[0].1 else Lookup(groups[1..], k)
  }

  predicate HasKey<K(==)>(groups: seq<(K, nat)>, k: K) {
    groups != [] && (groups[0].0 == k || HasKey(groups[1..], k))
  }

  predicate KeysDistinct<K(==)>(groups: seq<(K, nat)>) {
    groups != [] ==> !HasKey(groups[1..], groups[0].0) && KeysDistinct(groups[1..])
  }

  lemma {:induction false} BumpKeys<K>(groups: seq<(K, nat)>, k: K, x: K)
    ensures HasKey(Bump(groups, k), x) <==> HasKey(groups, x) || x == k
  {
    if groups != [] && groups[0].0 != k { BumpKeys(groups[1..], k, x); }
  }

  lemma {:induction false} BumpAdds<K>(groups: seq<(K, nat)>, k: K, x: K)
    requires KeysDistinct(groups)
    ensures KeysDistinct(Bump(groups, k))
    ensures Lookup(Bump(groups, k), x) == Lookup(groups, x) + if x == k then 1 else 0
  {
    if groups != [] && groups[0].0 != k {
      BumpAdds(groups[1..], k, x);
      BumpKeys(groups[1..], k, groups[0].0);
    }
  }

  // Every key has one group, holding its number of rows
  lemma {:induction false} GroupCountIsCount<K>(keys: seq<K>, k: K)
    ensures KeysDistinct(GroupCount(keys))
    ensures Lookup(GroupCount(keys), k) == Occurs(keys, k)
  {
    if keys != [] {
      var n := |keys| - 1;
      GroupCountIsCount(keys[..n], k);
      BumpAdds(GroupCount(keys[..n]), keys[n], k);
    }
  }

  // The join condition holds for key k and no other
  ghost predicate Selects<A, K(!new)>(on: (A, K) -> bool, x: A, k: K) {
    forall g :: on(x, g) <==> g == k
  }

  lemma {:induction false} OneMatch<A, K(!new)>(x: A, groups: seq<(K, nat)>, on: (A, K) -> bool, k: K)
    requires KeysDistinct(groups) && Selects(on, x, k)
    ensures |Partners(x, groups, on)| == 1
    ensures Partners(x, groups, on)[0].0 == x
    ensures Coalesce(Partners(x, groups, on)[0].1) == Lookup(groups, k)
  {
    if groups != [] {
      OneMatch(x, groups[1..], on, k);
      if groups[0].0 == k {
        NoMatch(x, groups[1..], on, k);
      }
    }
  }

  lemma {:induction false} NoMatch<A, K(!new)>(x: A, groups: seq<(K, nat)>, on: (A, K) -> bool, k: K)
    requires Selects(on, x, k)
    requires !HasKey(groups, k)
    ensures Matches(x, groups, on) == []
  {
    if groups != [] {
      NoMatch(x, groups[1..], on, k);
    }
  }

  /** A left join against grouped keys neither drops a row nor fans one out, and COALESCE(cnt, 0)
      is the number of rows with the row's key. */
  lemma {:induction false} LeftJoinCounts<A, K(!new)>(a: seq<A>, keys: seq<K>, on: (A, K) -> bool, key: A -> K, i: nat)
    requires forall x :: x in a ==> Selects(on, x, key(x))
    ensures |LeftJoin(a, GroupCount(keys), on)| == |a|
    ensures i < |a| ==>
      var row := LeftJoin(a, GroupCount(keys), on)[i];
      row.0 == a[i] && Coalesce(row.1) == Occurs(keys, key(a[i]))
  {
    if a != [] {
      GroupCountIsCount(keys, key(a[0]));
      OneMatch(a[0], GroupCount(keys), on, key(a[0]));
      LeftJoinCounts(a[1..], keys, on, key, if i == 0 then 0 else i - 1);
      var head, tail := Partners(a[0], GroupCount(keys), on), LeftJoin(a[1..], GroupCount(keys), on);
      if 0 < i < |a| { assert LeftJoin(a, GroupCount(keys), on)[i] == tail[i - 1]; }
    }
  }

  // A foreign key into distinct ids: every row has one partner
  lemma {:induction false} InnerJoinOne<A, B>(a: seq<A>, b: seq<B>, on: (A, B) -> bool, i: nat)
    requires forall x :: x in a ==> exists j :: 0 <= j < |b| && on(x, b[j])
    requires forall x, j, k :: x in a && 0 <= j < k < |b| ==> !(on(x, b[j]) && on(x, b[k]))
    ensures |InnerJoin(a, b, on)| == |a|
    ensures i < |a| ==>
      InnerJoin(a, b, on)[i].0 == a[i] && InnerJoin(a, b, on)[i].1 in b && on(a[i], InnerJoin(a, b, on)[i].1)
  {
    if a != [] {
      assert a[0] in a;
      assert forall x :: x in a[1..] ==> x in a;
      var j :| 0 <= j < |b| && on(a[0], b[j]);
      PairsOne(a[0], b, on, j);
      InnerJoinOne(a[1..], b, on, if i == 0 then 0 else i - 1);
      if 0 < i < |a| { assert InnerJoin(a, b, on)[i] == InnerJoin(a[1..], b, on)[i - 1]; }
    }
  }

  lemma {:induction false} PairsOne<A, B>(x: A, b: seq<B>, on: (A, B) -> bool, j: nat)
    requires j < |b| ==> on(x, b[j])
    requires forall k :: 0 <= k < |b| && k != j ==> !on(x, b[k])
    ensures Pairs(x, b, on) == if j < |b| then [(x, b[j])] else []
  {
    if b != [] {
      PairsOne(x, b[1..], on, if j == 0 then |b| else j - 1);
    }
  }
}
