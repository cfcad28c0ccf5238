/** `std::map::insert` and what a loop of inserts leaves behind: a key that
    is already present keeps its value, so among repeated keys the first
    one inserted wins. */
module StdMap {

  // Every map in the classifier is keyed by `std::string`.

  /** `m.insert(std::make_pair(k, v))`. */
  function Insert<V>(m: map<string, V>, k: string, v: V): (r: map<string, V>)
    ensures r.Keys == m.Keys + {k}
    ensures forall j :: j in m ==> r[j] == m[j]
    ensures k !in m ==> r[k] == v
  {
    if k in m then m else m[k := v]
  }

  predicate HasKey<V>(entries: seq<(string, V)>, k: string) {
    exists i :: 0 <= i < |entries| && entries[i].0 == k
  }

  /** An entry list carries `k` when its front part does or its last entry
      does. */
  lemma HasKeyStep<V>(entries: seq<(string, V)>, k: string)
    requires entries != []
    ensures HasKey(entries, k) <==> HasKey(entries[..|entries| - 1], k) || entries[|entries| - 1].0 == k
  {
    var n := |entries| - 1;
    if HasKey(entries[..n], k) {
      var i :| 0 <= i < n && entries[..n][i].0 == k;
      assert entries[i].0 == k;
    }
    if HasKey(entries, k) && entries[n].0 != k {
      var i :| 0 <= i < |entries| && entries[i].0 == k;
      assert entries[..n][i].0 == k;
    }
  }

  /** The position of the first entry whose key is `k`. */
  function FirstIndex<V>(entries: seq<(string, V)>, k: string): (i: nat)
    requires HasKey(entries, k)
    ensures i < |entries| && entries[i].0 == k
    ensures forall j :: 0 <= j < i ==> entries[j].0 != k
  {
    if entries[0].0 == k then 0
    else
      assert HasKey(entries[1..], k) by {
        var i :| 0 <= i < |entries| && entries[i].0 == k;
        assert entries[1..][i - 1].0 == k;
      }
      1 + FirstIndex(entries[1..], k)
  }

  /** Inserting `entries` into `m` one after the other, in order. */
  function InsertAll<V>(m: map<string, V>, entries: seq<(string, V)>): map<string, V>
  {
    if entries == [] then m
    else Insert(InsertAll(m, entries[..|entries| - 1]), entries[|entries| - 1].0, entries[|entries| - 1].1)
  }

  /** After the inserts a key is present exactly when it was before or some
      entry carries it; an old key keeps its value, and a new key holds the
      value of its FIRST entry. */
  lemma {:induction false} InsertAllSpec<V>(m: map<string, V>, entries: seq<(string, V)>, k: string)
    ensures k in InsertAll(m, entries) <==> k in m || HasKey(entries, k)
    ensures k in m ==> InsertAll(m, entries)[k] == m[k]
    ensures k !in m && HasKey(entries, k) ==> InsertAll(m, entries)[k] == entries[FirstIndex(entries, k)].1
  {
    if entries != [] {
      var n := |entries| - 1;
      var prefix := entries[..n];
      InsertAllSpec(m, prefix, k);
      if HasKey(prefix, k) {
        var i :| 0 <= i < |prefix| && prefix[i].0 == k;
        assert entries[i].0 == k;
        FirstIndexOfPrefix(entries, n, k);
      } else if HasKey(entries, k) {
        assert entries[n].0 == k;
      }
    }
  }

  /** Inserting into an empty map: the keys are exactly the entries' keys,
      each holding the value of its first entry. */
  lemma InsertAllFresh<V>(entries: seq<(string, V)>, k: string)
    ensures k in InsertAll(map[], entries) <==> HasKey(entries, k)
    ensures HasKey(entries, k) ==> InsertAll(map[], entries)[k] == entries[FirstIndex(entries, k)].1
  {
    InsertAllSpec(map[], entries, k);
  }

  /** The loop `for (item : entries) m.insert(item)`. */
  method InsertEach<V>(m: map<string, V>, entries: seq<(string, V)>) returns (r: map<string, V>)
    ensures r == InsertAll(m, entries)
  {
    r := m;
    for i := 0 to |entries|
      invariant r == InsertAll(m, entries[..i])
    {
      assert entries[..i + 1][..i] == entries[..i];
      r := Insert(r, entries[i].0, entries[i].1);
    }
    assert entries[..|entries|] == entries;
  }

  /** A key already present in a prefix has its first occurrence there. */
  lemma FirstIndexOfPrefix<V>(entries: seq<(string, V)>, n: nat, k: string)
    requires n <= |entries| && HasKey(entries[..n], k)
    ensures HasKey(entries, k)
    ensures FirstIndex(entries, k) == FirstIndex(entries[..n], k)
  {
    var i := FirstIndex(entries[..n], k);
    assert entries[i].0 == k;
    var j := FirstIndex(entries, k);
    assert j < n ==> entries[..n][j].0 == k;
  }

  // -----------------------------------------------------------------------
  // Iteration order: a `std::map` visits its keys in ascending order.

  /** `std::string`'s `operator<`: lexicographic order on characters. */
  predicate StringLess(a: string, b: string)
    decreases |a|
  {
    if |a| == 0 then |b| > 0
    else if |b| == 0 then false
    else if a[0] != b[0] then a[0] < b[0]
    else StringLess(a[1..], b[1..])
  }

  lemma {:induction false} StringLessIrreflexive(a: string)
    ensures !StringLess(a, a)
  {
    if |a| > 0 {
      StringLessIrreflexive(a[1..]);
    }
  }

  lemma {:induction false} StringLessTotal(a: string, b: string)
    requires a != b
    ensures StringLess(a, b) || StringLess(b, a)
  {
    if |a| > 0 && |b| > 0 && a[0] == b[0] {
      assert a == [a[0]] + a[1..] && b == [b[0]] + b[1..];
      StringLessTotal(a[1..], b[1..]);
    }
  }

  lemma {:induction false} StringLessTransitive(a: string, b: string, c: string)
    requires StringLess(a, b) && StringLess(b, c)
    ensures StringLess(a, c)
  {
    if |a| > 0 && |b| > 0 && |c| > 0 && a[0] == b[0] && b[0] == c[0] {
      StringLessTransitive(a[1..], b[1..], c[1..]);
    }
  }

  /** `x` is the smallest string of `s`. */
  predicate IsLeast(x: string, s: set<string>) {
    x in s && forall y :: y in s ==> y == x || StringLess(x, y)
  }

  lemma {:induction false} LeastExists(s: set<string>)
    requires s != {}
    ensures exists x :: IsLeast(x, s)
    decreases |s|
  {
    var y :| y in s;
    if s == {y} {
      assert IsLeast(y, s);
    } else {
      LeastExists(s - {y});
      var x :| IsLeast(x, s - {y});
      if StringLess(x, y) {
        assert IsLeast(x, s);
      } else {
        StringLessTotal(x, y);
        forall z | z in s ensures z == y || StringLess(y, z) {
          if z != y && z != x {
            StringLessTransitive(y, x, z);
          }
        }
        assert IsLeast(y, s);
      }
    }
  }

  lemma LeastUnique(x: string, y: string, s: set<string>)
    requires IsLeast(x, s) && IsLeast(y, s)
    ensures x == y
  {
    if x != y {
      StringLessTransitive(x, y, x);
      StringLessIrreflexive(x);
    }
  }

  ghost function Least(s: set<string>): (x: string)
    requires s != {}
    ensures IsLeast(x, s)
  {
    LeastExists(s);
    var x :| IsLeast(x, s);
    x
  }

  /** The keys of `s` in the order a `std::map` visits them: smallest
      first. */
  ghost function SortedKeys(s: set<string>): seq<string>
    decreases |s|
  {
    if s == {} then [] else var x := Least(s); [x] + SortedKeys(s - {x})
  }

  /** The visit names every key of `s`, and nothing else, in strictly
      ascending order. */
  lemma {:induction false} SortedKeysSpec(s: set<string>)
    ensures |SortedKeys(s)| == |s|
    ensures forall c :: c in SortedKeys(s) <==> c in s
    ensures forall i, j :: 0 <= i < j < |SortedKeys(s)| ==> StringLess(SortedKeys(s)[i], SortedKeys(s)[j])
    decreases |s|
  {
    if s != {} {
      var x := Least(s);
      var rest := SortedKeys(s - {x});
      SortedKeysSpec(s - {x});
      assert SortedKeys(s) == [x] + rest;
      forall i, j | 0 <= i < j < |SortedKeys(s)| ensures StringLess(SortedKeys(s)[i], SortedKeys(s)[j]) {
        if i == 0 {
          assert SortedKeys(s)[j] == rest[j - 1] && rest[j - 1] in s - {x};
        } else {
          assert SortedKeys(s)[i] == rest[i - 1] && SortedKeys(s)[j] == rest[j - 1];
        }
      }
    }
  }

  /** The visit starts at the smallest key. */
  lemma SortedKeysStep(s: set<string>, c: string)
    requires IsLeast(c, s)
    ensures SortedKeys(s) == [c] + SortedKeys(s - {c})
  {
    LeastUnique(c, Least(s), s);
  }

  /** A visiting order names every key once. */
  lemma SortedKeysDistinct(s: set<string>, i: nat, j: nat)
    requires i < j < |SortedKeys(s)|
    ensures SortedKeys(s)[i] != SortedKeys(s)[j]
  {
    SortedKeysSpec(s);
    StringLessIrreflexive(SortedKeys(s)[i]);
  }

  /** Lists the keys of `m` in ascending order, smallest first. */
  method KeysInOrder<V>(m: map<string, V>) returns (order: seq<string>)
    ensures order == SortedKeys(m.Keys)
  {
    order := [];
    var remaining := m.Keys;
    while remaining != {}
      invariant order + SortedKeys(remaining) == SortedKeys(m.Keys)
      decreases |remaining|
    {
      LeastExists(remaining);
      var c :| IsLeast(c, remaining);
      SortedKeysStep(remaining, c);
      order := order + [c];
      remaining := remaining - {c};
    }
  }
}
