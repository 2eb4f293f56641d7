/** ORDER BY created_at over the rows of a table that a WHERE keeps. */
module Orders {
  import opened Sequences

  // Row i goes before the first row listed with a larger key
  function InsertBy(key: nat -> int, i: nat, order: seq<nat>): seq<nat> {
    if order == [] || key(i) < key(order[0]) then [i] + order
    else [order[0]] + InsertBy(key, i, order[1..])
  }

  // The rows below n that are kept, in some order the query may return
  function Listed(key: nat -> int, kept: nat -> bool, n: nat): seq<nat> {
    if n == 0 then []
    else if kept(n - 1) then InsertBy(key, n - 1, Listed(key, kept, n - 1))
    else Listed(key, kept, n - 1)
  }

  ghost predicate Ascending(key: nat -> int, order: seq<nat>) {
    forall i, j :: 0 <= i < j < |order| ==> key(order[i]) <= key(order[j])
  }

  lemma {:induction false} InsertLists(key: nat -> int, i: nat, order: seq<nat>)
    requires Ascending(key, order) && Distinct(order) && i !in order
    ensures var r := InsertBy(key, i, order);
      Ascending(key, r) && Distinct(r) && forall x :: x in r <==> x == i || x in order
  {
    if order != [] && key(order[0]) <= key(i) {
      InsertLists(key, i, order[1..]);
      var rest := InsertBy(key, i, order[1..]);
      forall j | 0 <= j < |rest| ensures key(order[0]) <= key(rest[j]) && order[0] != rest[j] {
        assert rest[j] in rest;
      }
    }
  }

  lemma {:induction false} ListedIsOrdered(key: nat -> int, kept: nat -> bool, n: nat)
    ensures var r := Listed(key, kept, n);
      Ascending(key, r) && Distinct(r) && forall x: nat :: x in r <==> x < n && kept(x)
  {
    if n > 0 {
      ListedIsOrdered(key, kept, n - 1);
      if kept(n - 1) { InsertLists(key, n - 1, Listed(key, kept, n - 1)); }
    }
  }
}
