/**
 * The row orders of the store's queries. Every `ORDER BY` the engine
 * issues sorts on an integer column (`sortOrder ASC`, `isRead ASC`, an id)
 * and/or on `datePublished DESC`, a text column compared byte by byte. A
 * `Key` holds those three parts; `Before` is the order, with ties broken by
 * ascending id (SQL leaves them unspecified). Because `Before` is a strict
 * total order, a set of keys has exactly one sorted listing, `Listed`.
 */
module Ordering {
  import opened Strings

  /** SQLite's binary text comparison: `a` sorts strictly before `b`. */
  predicate StrLess(a: string, b: string)
    decreases |a|
  {
    |b| > 0 && (|a| == 0 || a[0] < b[0] || (a[0] == b[0] && StrLess(a[1..], b[1..])))
  }

  lemma {:induction false} StrLessIrreflexive(a: string)
    ensures !StrLess(a, a)
    decreases |a|
  {
    if |a| > 0 {
      StrLessIrreflexive(a[1..]);
    }
  }

  lemma {:induction false} StrLessTransitive(a: string, b: string, c: string)
    requires StrLess(a, b) && StrLess(b, c)
    ensures StrLess(a, c)
    decreases |a|
  {
    if |a| > 0 && a[0] == b[0] && b[0] == c[0] {
      StrLessTransitive(a[1..], b[1..], c[1..]);
    }
  }

  lemma {:induction false} StrLessTotal(a: string, b: string)
    ensures a == b || StrLess(a, b) || StrLess(b, a)
    decreases |a|
  {
    if |a| > 0 && |b| > 0 && a[0] == b[0] {
      StrLessTotal(a[1..], b[1..]);
      if a[1..] == b[1..] {
        assert a == [a[0]] + a[1..] && b == [b[0]] + b[1..];
      }
    }
  }

  /** A sort key: `rank` ascending, then `date` descending, then `id` ascending. */
  datatype Key = Key(rank: nat, date: string, id: UInt64)

  predicate Before(x: Key, y: Key)
  {
    x.rank < y.rank
    || (x.rank == y.rank && (StrLess(y.date, x.date) || (x.date == y.date && x.id < y.id)))
  }

  lemma BeforeIrreflexive(x: Key)
    ensures !Before(x, x)
  {
    StrLessIrreflexive(x.date);
  }

  lemma BeforeTransitive(x: Key, y: Key, z: Key)
    requires Before(x, y) && Before(y, z)
    ensures Before(x, z)
  {
    if x.rank == y.rank == z.rank {
      if StrLess(y.date, x.date) && StrLess(z.date, y.date) {
        StrLessTransitive(z.date, y.date, x.date);
      }
    }
  }

  lemma BeforeTotal(x: Key, y: Key)
    ensures x == y || Before(x, y) || Before(y, x)
  {
    StrLessTotal(x.date, y.date);
  }

  lemma BeforeAsymmetric(x: Key, y: Key)
    requires Before(x, y)
    ensures !Before(y, x)
  {
    if Before(y, x) {
      BeforeTransitive(x, y, x);
      BeforeIrreflexive(x);
    }
  }

  predicate Sorted(ks: seq<Key>)
  {
    forall i, j :: 0 <= i < j < |ks| ==> Before(ks[i], ks[j])
  }

  /** `ks` lists the keys of `s` in order, each once. */
  ghost predicate Lists(ks: seq<Key>, s: set<Key>)
  {
    Sorted(ks) && forall k :: k in ks <==> k in s
  }

  ghost predicate IsFirst(m: Key, s: set<Key>)
  {
    m in s && forall x :: x in s && x != m ==> Before(m, x)
  }

  lemma {:induction false} FirstExists(s: set<Key>)
    requires s != {}
    ensures exists m :: IsFirst(m, s)
    decreases s
  {
    var x :| x in s;
    if s - {x} == {} {
      assert s == {x};
      assert IsFirst(x, s);
    } else {
      FirstExists(s - {x});
      var m :| IsFirst(m, s - {x});
      BeforeTotal(m, x);
      if Before(m, x) {
        assert IsFirst(m, s);
      } else {
        forall y | y in s && y != x
          ensures Before(x, y)
        {
          if y != m {
            BeforeTransitive(x, m, y);
          }
        }
        assert IsFirst(x, s);
      }
    }
  }

  /** The sorted listing of a set of keys. */
  ghost function Listed(s: set<Key>): (ks: seq<Key>)
    ensures Lists(ks, s)
    ensures |ks| == |s|
    decreases s
  {
    if s == {} then []
    else
      FirstExists(s);
      var m :| IsFirst(m, s);
      var rest := Listed(s - {m});
      assert forall j :: 0 <= j < |rest| ==> Before(m, rest[j]) by {
        forall j | 0 <= j < |rest| ensures Before(m, rest[j]) {
          assert rest[j] in s - {m};
        }
      }
      [m] + rest
  }

  /** The sorted listing of a set is unique. */
  lemma {:induction false} ListsUnique(a: seq<Key>, b: seq<Key>, s: set<Key>)
    requires Lists(a, s) && Lists(b, s)
    ensures a == b
    decreases |a|
  {
    ListsEmpty(a, s);
    ListsEmpty(b, s);
    if a != [] && b != [] {
      var x, y := a[0], b[0];
      if x != y {
        assert y in a;
        var i :| 0 <= i < |a| && a[i] == y;
        assert x in b;
        var j :| 0 <= j < |b| && b[j] == x;
        assert Before(x, y) && Before(y, x);
        BeforeAsymmetric(x, y);
      }
      FirstNotInRest(a);
      FirstNotInRest(b);
      ListsUnique(a[1..], b[1..], s - {x});
      assert a == [x] + a[1..] && b == [y] + b[1..];
    }
  }

  lemma ListsEmpty(ks: seq<Key>, s: set<Key>)
    requires Lists(ks, s)
    ensures ks == [] <==> s == {}
  {
    assert |ks| == 0 || ks[0] in ks;
  }

  lemma FirstNotInRest(ks: seq<Key>)
    requires Sorted(ks) && ks != []
    ensures Sorted(ks[1..])
    ensures forall k :: k in ks[1..] <==> k in ks && k != ks[0]
  {
    forall k | k in ks[1..] ensures k != ks[0] {
      var i :| 0 <= i < |ks[1..]| && ks[1..][i] == k;
      assert Before(ks[0], ks[i + 1]);
      BeforeIrreflexive(ks[0]);
    }
    forall k | k in ks && k != ks[0] ensures k in ks[1..] {
      var i :| 0 <= i < |ks| && ks[i] == k;
      assert ks[1..][i - 1] == k;
    }
  }

  /** The ids of a sequence of keys, in order. */
  function IDsOf(ks: seq<Key>): (r: seq<UInt64>)
    ensures |r| == |ks|
    ensures forall i :: 0 <= i < |ks| ==> r[i] == ks[i].id
  {
    seq(|ks|, i requires 0 <= i < |ks| => ks[i].id)
  }

  /** The rows `LIMIT limit OFFSET offset` keeps of a listing. */
  function Window<T>(xs: seq<T>, offset: nat, limit: nat): (r: seq<T>)
    ensures |r| <= limit
    ensures offset >= |xs| ==> r == []
    ensures offset + limit <= |xs| ==> r == xs[offset..offset + limit]
    ensures forall i :: 0 <= i < |r| ==> offset + i < |xs| && r[i] == xs[offset + i]
  {
    var start := if offset < |xs| then offset else |xs|;
    var end := if offset + limit < |xs| then offset + limit else |xs|;
    xs[start..end]
  }

  /** Inserting a key into a sorted sequence at its place. */
  method Insert(ks: seq<Key>, k: Key) returns (r: seq<Key>)
    requires Sorted(ks) && k !in ks
    ensures Sorted(r)
    ensures forall x :: x in r <==> x in ks || x == k
  {
    var i := 0;
    while i < |ks| && Before(ks[i], k)
      invariant 0 <= i <= |ks|
      invariant forall j :: 0 <= j < i ==> Before(ks[j], k)
    {
      i := i + 1;
    }
    forall j | i <= j < |ks|
      ensures Before(k, ks[j])
    {
      BeforeTotal(ks[i], k);
      assert Before(k, ks[i]);
      if j > i {
        BeforeTransitive(k, ks[i], ks[j]);
      }
    }
    r := ks[..i] + [k] + ks[i..];
    forall a, b | 0 <= a < b < |r|
      ensures Before(r[a], r[b])
    {
      if b < i {
        assert r[a] == ks[a] && r[b] == ks[b];
      } else if b == i {
        assert r[a] == ks[a] && r[b] == k;
      } else if a < i {
        assert r[a] == ks[a] && r[b] == ks[b - 1];
        BeforeTransitive(ks[a], k, ks[b - 1]);
      } else if a == i {
        assert r[a] == k && r[b] == ks[b - 1];
      } else {
        assert r[a] == ks[a - 1] && r[b] == ks[b - 1];
      }
    }
    assert forall x :: x in r <==> x in ks[..i] || x == k || x in ks[i..];
    assert ks == ks[..i] + ks[i..];
  }

  /** Sorting a set of keys: the loop of an `ORDER BY` over the matching rows. */
  method ListKeys(s: set<Key>) returns (ks: seq<Key>)
    ensures ks == Listed(s)
  {
    ks := [];
    var rest := s;
    while rest != {}
      invariant rest <= s
      invariant Sorted(ks)
      invariant forall k :: k in ks <==> k in s && k !in rest
      decreases rest
    {
      var k :| k in rest;
      ks := Insert(ks, k);
      rest := rest - {k};
    }
    ListsUnique(ks, Listed(s), s);
  }

  // ---------------------------------------------------------------- orders on one integer column

  /** The keys of rows ordered by one integer column (`ranks[id]`) ascending, ties by id. */
  function RankKeys(ranks: map<UInt64, nat>): (ks: set<Key>)
    ensures forall id :: id in ranks ==> Key(ranks[id], "", id) in ks
    ensures forall k :: k in ks ==> k.id in ranks && k == Key(ranks[k.id], "", k.id)
  {
    set id | id in ranks :: Key(ranks[id], "", id)
  }

  /** The ids of those rows in that order. */
  ghost function RankOrder(ranks: map<UInt64, nat>): seq<UInt64>
  {
    IDsOf(Listed(RankKeys(ranks)))
  }

  lemma {:induction false} RankKeysSize(ranks: map<UInt64, nat>)
    ensures |RankKeys(ranks)| == |ranks|
    decreases |ranks|
  {
    if ranks != map[] {
      var x :| x in ranks;
      var rest := ranks - {x};
      RankKeysSize(rest);
      forall k | k in RankKeys(ranks) ensures k in RankKeys(rest) + {Key(ranks[x], "", x)} {
        if k.id != x {
          assert k.id in rest;
        }
      }
      assert RankKeys(ranks) == RankKeys(rest) + {Key(ranks[x], "", x)};
      assert Key(ranks[x], "", x) !in RankKeys(rest);
      assert rest.Keys == ranks.Keys - {x};
    }
  }

  /** The order lists every row, and only rows, each once. */
  lemma RankOrderContents(ranks: map<UInt64, nat>)
    ensures forall id :: id in RankOrder(ranks) <==> id in ranks
    ensures |RankOrder(ranks)| == |ranks|
  {
    var ks := RankKeys(ranks);
    var sorted := Listed(ks);
    var o := IDsOf(sorted);
    RankKeysSize(ranks);
    forall id | id in ranks ensures id in o {
      var i :| 0 <= i < |sorted| && sorted[i] == Key(ranks[id], "", id);
      assert o[i] == id;
    }
    forall id | id in o ensures id in ranks {
      var i :| 0 <= i < |o| && o[i] == id;
      assert sorted[i] in ks;
    }
  }

  /** Lower ranks come first, equal ranks by ascending id. */
  lemma RankOrderSorted(ranks: map<UInt64, nat>, i: nat, j: nat)
    requires i < j < |RankOrder(ranks)|
    ensures RankOrder(ranks)[i] in ranks && RankOrder(ranks)[j] in ranks
    ensures var o := RankOrder(ranks);
      ranks[o[i]] < ranks[o[j]] || (ranks[o[i]] == ranks[o[j]] && o[i] < o[j])
  {
    var ks := RankKeys(ranks);
    var sorted := Listed(ks);
    assert sorted[i] in ks && sorted[j] in ks;
    assert Before(sorted[i], sorted[j]);
    StrLessIrreflexive("");
  }

  /** Hence rows keep their relative order: a lower rank is listed earlier. */
  lemma RankOrderRespectsRanks(ranks: map<UInt64, nat>, i: nat, j: nat)
    requires i < |RankOrder(ranks)| && j < |RankOrder(ranks)|
    requires RankOrder(ranks)[i] in ranks && RankOrder(ranks)[j] in ranks
    requires ranks[RankOrder(ranks)[i]] < ranks[RankOrder(ranks)[j]]
    ensures i < j
  {
    if j < i {
      RankOrderSorted(ranks, j, i);
    }
  }

  /** Where a row is listed. */
  lemma RankOrderIndex(ranks: map<UInt64, nat>, id: UInt64) returns (i: nat)
    requires id in ranks
    ensures i < |RankOrder(ranks)| && RankOrder(ranks)[i] == id
  {
    RankOrderContents(ranks);
    var o := RankOrder(ranks);
    assert id in o;
    i :| i < |o| && o[i] == id;
  }

  /** Of two rows, the one with the smaller rank (or, at equal ranks, the smaller id) is listed first. */
  lemma RankOrderIndicesOrdered(ranks: map<UInt64, nat>, a: UInt64, b: UInt64) returns (i: nat, j: nat)
    requires a in ranks && b in ranks && a != b
    requires ranks[a] < ranks[b] || (ranks[a] == ranks[b] && a < b)
    ensures |RankOrder(ranks)| == |ranks| && i < j < |RankOrder(ranks)|
    ensures RankOrder(ranks)[i] == a && RankOrder(ranks)[j] == b
  {
    RankOrderContents(ranks);
    i := RankOrderIndex(ranks, a);
    j := RankOrderIndex(ranks, b);
    if j < i {
      RankOrderSorted(ranks, j, i);
      assert false;
    }
  }

  /** No row is listed twice. */
  lemma RankOrderDistinct(ranks: map<UInt64, nat>)
    ensures var o := RankOrder(ranks); forall i, j :: 0 <= i < j < |o| ==> o[i] != o[j]
  {
    var o := RankOrder(ranks);
    forall i, j | 0 <= i < j < |o| ensures o[i] != o[j] {
      RankOrderSorted(ranks, i, j);
    }
  }

  /** Sorting the rows by the column: the `ORDER BY` loop. */
  method ListRanked(ranks: map<UInt64, nat>) returns (ids: seq<UInt64>)
    ensures ids == RankOrder(ranks)
  {
    var ks := ListKeys(RankKeys(ranks));
    ids := IDsOf(ks);
  }
}
