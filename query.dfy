/** The store's `findMany` as the operations use it: keep the rows of a table
    that satisfy a `where` predicate and order them by a key, largest first.
    Rows are identified by their nat ids; ties on the key keep ascending id
    order (the store itself leaves the order of ties unspecified). */
module Query {

  predicate Increasing(s: seq<nat>) {
    forall i, j :: 0 <= i < j < |s| ==> s[i] < s[j]
  }

  predicate Distinct(s: seq<nat>) {
    forall i, j :: 0 <= i < j < |s| ==> s[i] != s[j]
  }

  predicate SortedDesc(s: seq<nat>, key: nat -> int) {
    forall i, j :: 0 <= i < j < |s| ==> key(s[i]) >= key(s[j])
  }

  predicate IsLeast(k: nat, s: set<nat>) {
    k in s && forall j :: j in s ==> k <= j
  }

  lemma {:induction false} LeastExists(s: set<nat>)
    requires s != {}
    ensures exists k :: IsLeast(k, s)
    decreases |s|
  {
    var x :| x in s;
    var rest := s - {x};
    if rest == {} {
      assert s == {x};
      assert IsLeast(x, s);
    } else {
      LeastExists(rest);
      var m :| IsLeast(m, rest);
      var least := if x < m then x else m;
      assert s == rest + {x};
      assert IsLeast(least, s);
    }
  }

  function Least(s: set<nat>): (k: nat)
    requires s != {}
    ensures k in s && forall j :: j in s ==> k <= j
  {
    LeastExists(s);
    var k :| IsLeast(k, s);
    k
  }

  /** The elements of a finite set of ids, in ascending order. */
  function Enumerate(s: set<nat>): (r: seq<nat>)
    ensures Increasing(r)
    ensures forall k :: k in r <==> k in s
    decreases |s|
  {
    if s == {} then []
    else
      var k := Least(s);
      var rest := Enumerate(s - {k});
      assert forall i :: 0 <= i < |rest| ==> k < rest[i] by {
        forall i | 0 <= i < |rest| ensures k < rest[i] {
          assert rest[i] in rest;
        }
      }
      [k] + rest
  }

  /** Two increasing sequences with the same elements are equal, so
      `Enumerate` is the only ascending listing of a set. */
  lemma {:induction false} IncreasingUnique(a: seq<nat>, b: seq<nat>)
    requires Increasing(a) && Increasing(b)
    requires forall k :: k in a <==> k in b
    ensures a == b
    decreases |a|
  {
    if a == [] {
      assert forall i :: 0 <= i < |b| ==> b[i] in b;
    } else {
      assert a[0] in a;
      assert b != [];
      assert b[0] in b;
      assert a[0] == b[0];
      forall k ensures k in a[1..] <==> k in b[1..] {
        if k in a[1..] {
          assert k in a && k != a[0];
        }
        if k in b[1..] {
          assert k in b && k != b[0];
        }
      }
      IncreasingUnique(a[1..], b[1..]);
      assert a == [a[0]] + a[1..];
      assert b == [b[0]] + b[1..];
    }
  }

  /** Ids of the rows of `m` that satisfy `keep`. */
  function Where<V>(m: map<nat, V>, keep: V -> bool): (s: set<nat>)
    ensures forall k :: k in s <==> k in m && keep(m[k])
  {
    set k | k in m && keep(m[k])
  }

  /** Ids of the rows of `m` that satisfy `keep`, in ascending order. */
  function Select<V>(m: map<nat, V>, keep: V -> bool): (r: seq<nat>)
    ensures Increasing(r)
    ensures forall k :: k in r <==> k in m && keep(m[k])
  {
    Enumerate(Where(m, keep))
  }

  /** Insert `x` before the first id whose key is smaller. */
  function Insert(x: nat, s: seq<nat>, key: nat -> int): (r: seq<nat>)
    ensures multiset(r) == multiset(s) + multiset{x}
    ensures SortedDesc(s, key) ==> SortedDesc(r, key)
  {
    if s == [] || key(x) >= key(s[0]) then
      if SortedDesc(s, key) then InsertFront(x, s, key); [x] + s
      else [x] + s
    else
      var rest := Insert(x, s[1..], key);
      assert s == [s[0]] + s[1..];
      if SortedDesc(s, key) then InsertBehind(x, s, rest, key); [s[0]] + rest
      else [s[0]] + rest
  }

  lemma InsertFront(x: nat, s: seq<nat>, key: nat -> int)
    requires s == [] || key(x) >= key(s[0])
    requires SortedDesc(s, key)
    ensures SortedDesc([x] + s, key)
  {
    forall i, j | 0 <= i < j < |[x] + s| ensures key(([x] + s)[i]) >= key(([x] + s)[j]) {
      if i > 0 { assert ([x] + s)[i] == s[i - 1]; }
    }
  }

  lemma InsertBehind(x: nat, s: seq<nat>, rest: seq<nat>, key: nat -> int)
    requires s != [] && key(x) < key(s[0])
    requires SortedDesc(s, key) && SortedDesc(rest, key)
    requires multiset(rest) == multiset(s[1..]) + multiset{x}
    ensures SortedDesc([s[0]] + rest, key)
  {
    forall i | 0 <= i < |rest| ensures key(s[0]) >= key(rest[i]) {
      assert rest[i] in multiset(rest);
      if rest[i] != x {
        assert rest[i] in multiset(s[1..]);
        var j :| 0 <= j < |s[1..]| && s[1..][j] == rest[i];
        assert s[j + 1] == rest[i];
      }
    }
    forall i, j | 0 <= i < j < |[s[0]] + rest| ensures key(([s[0]] + rest)[i]) >= key(([s[0]] + rest)[j]) {
      if i > 0 { assert ([s[0]] + rest)[i] == rest[i - 1]; }
      assert ([s[0]] + rest)[j] == rest[j - 1];
    }
  }

  /** Stable insertion sort of ids by a key, largest key first. */
  function SortDesc(s: seq<nat>, key: nat -> int): (r: seq<nat>)
    ensures multiset(r) == multiset(s)
    ensures SortedDesc(r, key)
  {
    if s == [] then []
    else
      assert s == [s[0]] + s[1..];
      Insert(s[0], SortDesc(s[1..], key), key)
  }

  /** A sequence already in order is left as it is. */
  lemma {:induction false} SortDescOfSorted(s: seq<nat>, key: nat -> int)
    requires SortedDesc(s, key)
    ensures SortDesc(s, key) == s
  {
    if s != [] {
      assert SortedDesc(s[1..], key);
      SortDescOfSorted(s[1..], key);
      assert s == [s[0]] + s[1..];
    }
  }

  lemma {:induction false} DistinctCounts(s: seq<nat>)
    requires Distinct(s)
    ensures forall x :: multiset(s)[x] <= 1
  {
    if s != [] {
      assert s == [s[0]] + s[1..];
      assert Distinct(s[1..]);
      DistinctCounts(s[1..]);
      assert s[0] !in s[1..];
    }
  }

  /** Two equal entries at distinct positions are counted twice. */
  lemma Occurrences(b: seq<nat>, i: nat, j: nat)
    requires i < j < |b|
    ensures b[i] == b[j] ==> multiset(b)[b[i]] >= 2
  {
    assert b == b[..j] + b[j..];
    assert b[i] in b[..j];
    assert b[j] in b[j..];
  }

  /** Reordering a sequence without duplicates gives one without duplicates. */
  lemma PermutationKeepsDistinct(a: seq<nat>, b: seq<nat>)
    requires multiset(a) == multiset(b)
    requires Distinct(a)
    ensures Distinct(b)
  {
    DistinctCounts(a);
    forall i, j | 0 <= i < j < |b| ensures b[i] != b[j] {
      Occurrences(b, i, j);
    }
  }

  /** The key of a row, looked up by id. */
  function KeyOf<V>(m: map<nat, V>, key: V -> int): nat -> int {
    k => if k in m then key(m[k]) else 0
  }

  /** `findMany({ where: keep, orderBy: { key: 'desc' } })` on table `m`:
      exactly the ids of the rows satisfying `keep`, each once, largest key first. */
  function FindManyDesc<V>(m: map<nat, V>, keep: V -> bool, key: V -> int): (r: seq<nat>)
    ensures forall k :: k in r <==> k in m && keep(m[k])
    ensures Distinct(r)
    ensures forall i, j :: 0 <= i < j < |r| ==> key(m[r[i]]) >= key(m[r[j]])
  {
    var ids := Select(m, keep);
    var r := SortDesc(ids, KeyOf(m, key));
    assert forall k :: k in r <==> k in ids by {
      forall k ensures k in r <==> k in ids {
        assert k in r <==> k in multiset(r);
      }
    }
    PermutationKeepsDistinct(ids, r);
    r
  }

  /** The rows with the given ids, in the order of the ids. */
  function Rows<V>(m: map<nat, V>, ids: seq<nat>): (r: seq<V>)
    requires forall k :: k in ids ==> k in m
    ensures |r| == |ids| && forall i :: 0 <= i < |ids| ==> r[i] == m[ids[i]]
  {
    seq(|ids|, i requires 0 <= i < |ids| => m[ids[i]])
  }
}
