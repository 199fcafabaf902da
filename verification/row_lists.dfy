/**
 * The row-list idioms every editor page repeats on its item table, stated
 * once over any row type with an id: `rows.map(r => r.id === id ? edit(r) : r)`,
 * `rows.filter(r => r.id !== id)` guarded by `rows.length > 1`, and appending
 * a row with a fresh id.
 */
module RowLists {
  import opened Wrappers

  /** No two rows share an id. */
  predicate DistinctKeys<T(!new), K(==)>(rows: seq<T>, key: T -> K) {
    forall i, j :: 0 <= i < j < |rows| ==> key(rows[i]) != key(rows[j])
  }

  predicate HasKey<T(!new), K(==)>(rows: seq<T>, key: T -> K, id: K) {
    exists i :: 0 <= i < |rows| && key(rows[i]) == id
  }

  /** `rows.map(r => r.id === id ? edit(r) : r)`. */
  function MapMatching<T(!new), K(==)>(rows: seq<T>, key: T -> K, id: K, edit: T -> T): (r: seq<T>)
    ensures |r| == |rows|
    ensures forall i :: 0 <= i < |rows| ==> r[i] == if key(rows[i]) == id then edit(rows[i]) else rows[i]
  {
    seq(|rows|, i requires 0 <= i < |rows| => if key(rows[i]) == id then edit(rows[i]) else rows[i])
  }

  /** `rows.filter(r => r.id !== id)`. */
  function Without<T(!new), K(==)>(rows: seq<T>, key: T -> K, id: K): (r: seq<T>)
    ensures forall x :: x in r <==> x in rows && key(x) != id
    ensures |r| <= |rows|
  {
    if rows == [] then []
    else if key(rows[0]) == id then Without(rows[1..], key, id)
    else [rows[0]] + Without(rows[1..], key, id)
  }

  /** Filtering works row by row: it distributes over concatenation, so the kept rows keep their order. */
  lemma {:induction false} WithoutAppend<T(!new), K>(a: seq<T>, b: seq<T>, key: T -> K, id: K)
    ensures Without(a + b, key, id) == Without(a, key, id) + Without(b, key, id)
  {
    if a == [] {
      assert a + b == b;
    } else {
      assert (a + b)[1..] == a[1..] + b;
      WithoutAppend(a[1..], b, key, id);
    }
  }

  /** On one row: a row with the id is dropped, any other row is kept. */
  lemma WithoutSingle<T(!new), K>(x: T, key: T -> K, id: K)
    ensures Without([x], key, id) == if key(x) == id then [] else [x]
  {
    assert [x][1..] == [];
  }

  /** The removal the pages perform: filter only while more than one row is left. */
  function RemoveRow<T(!new), K(==)>(rows: seq<T>, key: T -> K, id: K): seq<T> {
    if |rows| > 1 then Without(rows, key, id) else rows
  }

  /** `rows.find(r => r.id === id)`. */
  function Find<T(!new), K(==)>(rows: seq<T>, key: T -> K, id: K): (r: Option<T>)
    ensures r.None? <==> forall i :: 0 <= i < |rows| ==> key(rows[i]) != id
    ensures r.Some? ==> r.value in rows && key(r.value) == id
  {
    if rows == [] then None
    else if key(rows[0]) == id then Some(rows[0])
    else Find(rows[1..], key, id)
  }

  /** The row found is the first one with the id, whatever later rows share it. */
  lemma {:induction false} FindFirst<T(!new), K>(rows: seq<T>, key: T -> K, id: K, i: int)
    requires 0 <= i < |rows| && key(rows[i]) == id
    requires forall j :: 0 <= j < i ==> key(rows[j]) != id
    ensures Find(rows, key, id) == Some(rows[i])
  {
    if i > 0 {
      FindFirst(rows[1..], key, id, i - 1);
    }
  }

  /** An edit that keeps every row's id keeps the ids distinct. */
  lemma MapMatchingKeepsKeys<T(!new), K>(rows: seq<T>, key: T -> K, id: K, edit: T -> T)
    requires DistinctKeys(rows, key)
    requires forall x :: key(edit(x)) == key(x)
    ensures var r := MapMatching(rows, key, id, edit);
      DistinctKeys(r, key) && forall i :: 0 <= i < |r| ==> key(r[i]) == key(rows[i])
  {
    var r := MapMatching(rows, key, id, edit);
    forall i | 0 <= i < |r| ensures key(r[i]) == key(rows[i]) {
      if key(rows[i]) == id {
        assert r[i] == edit(rows[i]);
      }
    }
  }

  /** The tail of a list with distinct ids has distinct ids and lacks the head's id. */
  lemma DistinctTail<T(!new), K>(rows: seq<T>, key: T -> K)
    requires rows != [] && DistinctKeys(rows, key)
    ensures DistinctKeys(rows[1..], key) && !HasKey(rows[1..], key, key(rows[0]))
  {
    var tail := rows[1..];
    forall i | 0 <= i < |tail| ensures tail[i] == rows[i + 1] {}
  }

  /** Putting a row in front of rows that lack its id keeps the ids distinct. */
  lemma DistinctCons<T(!new), K>(x: T, rest: seq<T>, key: T -> K)
    requires DistinctKeys(rest, key) && !HasKey(rest, key, key(x))
    ensures DistinctKeys([x] + rest, key)
  {
    var r := [x] + rest;
    forall i, j | 0 <= i < j < |r| ensures key(r[i]) != key(r[j]) {
      assert r[j] == rest[j - 1];
      if i > 0 { assert r[i] == rest[i - 1]; }
    }
  }

  /** Filtering never introduces an id. */
  lemma WithoutHasNoNewKey<T(!new), K>(rows: seq<T>, key: T -> K, id: K, k: K)
    requires HasKey(Without(rows, key, id), key, k)
    ensures HasKey(rows, key, k) && k != id
  {
    var r := Without(rows, key, id);
    var i :| 0 <= i < |r| && key(r[i]) == k;
    assert r[i] in rows;
    var j :| 0 <= j < |rows| && rows[j] == r[i];
  }

  /** With distinct ids, filtering one id out removes at most one row and keeps the ids distinct. */
  lemma {:induction false} WithoutDropsAtMostOne<T(!new), K>(rows: seq<T>, key: T -> K, id: K)
    requires DistinctKeys(rows, key)
    ensures |Without(rows, key, id)| >= |rows| - 1
    ensures !HasKey(rows, key, id) ==> |Without(rows, key, id)| == |rows|
    ensures DistinctKeys(Without(rows, key, id), key)
  {
    if rows != [] {
      var tail := rows[1..];
      DistinctTail(rows, key);
      WithoutDropsAtMostOne(tail, key, id);
      if key(rows[0]) == id {
        assert HasKey(rows, key, id);
      } else {
        if HasKey(tail, key, id) {
          var i :| 0 <= i < |tail| && key(tail[i]) == id;
          assert key(rows[i + 1]) == id;
        }
        if HasKey(Without(tail, key, id), key, key(rows[0])) {
          WithoutHasNoNewKey(tail, key, id, key(rows[0]));
        }
        DistinctCons(rows[0], Without(tail, key, id), key);
      }
    }
  }

  /** The guarded removal never empties a list with distinct ids, and keeps them distinct. */
  lemma RemoveKeepsARow<T(!new), K>(rows: seq<T>, key: T -> K, id: K)
    requires |rows| >= 1 && DistinctKeys(rows, key)
    ensures |RemoveRow(rows, key, id)| >= 1 && DistinctKeys(RemoveRow(rows, key, id), key)
    ensures |rows| == 1 ==> RemoveRow(rows, key, id) == rows
    ensures forall x :: x in RemoveRow(rows, key, id) ==> x in rows
  {
    if |rows| > 1 {
      WithoutDropsAtMostOne(rows, key, id);
    }
  }

  /** Appending a row with a fresh id keeps the ids distinct. */
  lemma AppendFreshKeepsDistinct<T(!new), K>(rows: seq<T>, key: T -> K, x: T)
    requires DistinctKeys(rows, key) && !HasKey(rows, key, key(x))
    ensures DistinctKeys(rows + [x], key)
  {
    var r := rows + [x];
    forall i, j | 0 <= i < j < |r| ensures key(r[i]) != key(r[j]) {
      assert r[i] == rows[i];
      if j < |rows| { assert r[j] == rows[j]; }
    }
  }
}
