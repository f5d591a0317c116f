/**
 * `std::map<string, int>` as the session report uses it for the catapult
 * group ids: a list of entries kept in ascending key order (the order in
 * which a `std::map` is iterated), where `insert` leaves an existing key's
 * value alone.
 */
module OrderedMap {
  import opened Wrappers

  type Entries = seq<(string, int)>

  /** The lexicographic order of `std::string::compare`. */
  predicate StrLess(a: string, b: string)
    decreases |a|
  {
    if a == [] then b != []
    else if b == [] then false
    else if a[0] != b[0] then a[0] < b[0]
    else StrLess(a[1..], b[1..])
  }

  lemma {:induction false} StrLessIrreflexive(a: string)
    ensures !StrLess(a, a)
    decreases |a|
  {
    if a != [] {
      StrLessIrreflexive(a[1..]);
    }
  }

  lemma {:induction false} StrLessTransitive(a: string, b: string, c: string)
    requires StrLess(a, b) && StrLess(b, c)
    ensures StrLess(a, c)
    decreases |a|
  {
    if a != [] && b != [] && c != [] && a[0] == b[0] && b[0] == c[0] {
      StrLessTransitive(a[1..], b[1..], c[1..]);
    }
  }

  lemma {:induction false} StrLessTotal(a: string, b: string)
    requires a != b
    ensures StrLess(a, b) || StrLess(b, a)
    decreases |a|
  {
    if a != [] && b != [] && a[0] == b[0] {
      assert a == [a[0]] + a[1..] && b == [b[0]] + b[1..];
      StrLessTotal(a[1..], b[1..]);
    }
  }

  /** Keys strictly ascending: the shape of a `std::map`. */
  predicate Sorted(l: Entries)
  {
    forall i, j :: 0 <= i < j < |l| ==> StrLess(l[i].0, l[j].0)
  }

  /** Every key of `l` is above `x`. */
  predicate Above(x: string, l: Entries)
  {
    forall i :: 0 <= i < |l| ==> StrLess(x, l[i].0)
  }

  /** `m.find(k)`: the value stored under `k`, if any. */
  function Lookup(l: Entries, k: string): Option<int>
  {
    if l == [] then None
    else if l[0].0 == k then Some(l[0].1)
    else Lookup(l[1..], k)
  }

  /** `m.insert(pair(k, v))`: a new key takes its sorted place; an existing one keeps its value. */
  function Insert(l: Entries, k: string, v: int): (r: Entries)
    ensures |r| == |l| || |r| == |l| + 1
  {
    if l == [] then [(k, v)]
    else if l[0].0 == k then l
    else if StrLess(k, l[0].0) then [(k, v)] + l
    else [l[0]] + Insert(l[1..], k, v)
  }

  lemma {:induction false} SortedTail(l: Entries)
    requires Sorted(l) && l != []
    ensures Above(l[0].0, l[1..]) && Sorted(l[1..])
  {
    assert forall i :: 0 <= i < |l| - 1 ==> l[1..][i] == l[i + 1];
  }

  lemma {:induction false} SortedCons(e: (string, int), l: Entries)
    requires Above(e.0, l) && Sorted(l)
    ensures Sorted([e] + l)
  {
    var r := [e] + l;
    forall i, j | 0 <= i < j < |r| ensures StrLess(r[i].0, r[j].0) {
      if i == 0 {
        assert r[j] == l[j - 1];
      } else {
        assert r[i] == l[i - 1] && r[j] == l[j - 1];
      }
    }
  }

  /** A key below the first key of a sorted list is below all of them. */
  lemma {:induction false} BelowHead(x: string, l: Entries)
    requires Sorted(l) && l != [] && StrLess(x, l[0].0)
    ensures Above(x, l)
  {
    forall j | 0 <= j < |l| ensures StrLess(x, l[j].0) {
      if j > 0 {
        StrLessTransitive(x, l[0].0, l[j].0);
      }
    }
  }

  /** Inserting a key above `x` keeps every key above `x`. */
  lemma {:induction false} InsertAbove(x: string, l: Entries, k: string, v: int)
    requires Above(x, l) && StrLess(x, k)
    ensures Above(x, Insert(l, k, v))
    decreases |l|
  {
    if l != [] && l[0].0 != k && !StrLess(k, l[0].0) {
      var r' := Insert(l[1..], k, v);
      assert Above(x, l[1..]);
      InsertAbove(x, l[1..], k, v);
      var r := [l[0]] + r';
      forall i | 0 <= i < |r| ensures StrLess(x, r[i].0) {
        if i > 0 {
          assert r[i] == r'[i - 1];
        }
      }
    }
  }

  /** Insertion keeps the keys strictly ascending. */
  lemma {:induction false} InsertSorted(l: Entries, k: string, v: int)
    requires Sorted(l)
    ensures Sorted(Insert(l, k, v))
    decreases |l|
  {
    if l == [] {
    } else if l[0].0 == k {
    } else if StrLess(k, l[0].0) {
      BelowHead(k, l);
      SortedCons((k, v), l);
    } else {
      StrLessTotal(k, l[0].0);
      SortedTail(l);
      InsertSorted(l[1..], k, v);
      InsertAbove(l[0].0, l[1..], k, v);
      SortedCons(l[0], Insert(l[1..], k, v));
    }
  }

  /** After an insert the key holds its first value, and every other key is untouched. */
  lemma {:induction false} LookupInsert(l: Entries, k: string, v: int, q: string)
    requires Sorted(l)
    ensures Lookup(Insert(l, k, v), q) ==
      if q == k && Lookup(l, k).None? then Some(v) else Lookup(l, q)
    decreases |l|
  {
    if l == [] || l[0].0 == k {
    } else if StrLess(k, l[0].0) {
      if q == k {
        BelowHead(k, l);
        LookupAbove(k, l);
      } else {
        assert ([(k, v)] + l)[1..] == l;
      }
    } else {
      SortedTail(l);
      var r' := Insert(l[1..], k, v);
      assert ([l[0]] + r')[1..] == r';
      LookupInsert(l[1..], k, v, q);
    }
  }

  /** A key below every key of the list is not in it. */
  lemma {:induction false} LookupAbove(x: string, l: Entries)
    requires Above(x, l)
    ensures Lookup(l, x).None?
    decreases |l|
  {
    if l != [] {
      StrLessIrreflexive(x);
      assert Above(x, l[1..]);
      LookupAbove(x, l[1..]);
    }
  }
}
