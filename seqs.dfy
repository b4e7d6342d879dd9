/** List operations the pipelines share: keeping the entries a mask selects
    (the `if ...: out.append(x)` loops) and Python's stable `list.sort(key=...)`. */
module Seqs {

  // ---------------------------------------------------------------------------
  // Selection by a mask.

  /** The entries of s whose mask bit is set, in their original order. */
  function Select<T>(s: seq<T>, mask: seq<bool>): (r: seq<T>)
    requires |s| == |mask|
    ensures |r| <= |s|
    decreases |s|
  {
    if s == [] then []
    else Select(s[..|s| - 1], mask[..|s| - 1]) + (if mask[|s| - 1] then [s[|s| - 1]] else [])
  }

  /** The positions whose mask bit is set, in increasing order. */
  function SetPositions(mask: seq<bool>): seq<nat>
    decreases |mask|
  {
    if mask == [] then []
    else SetPositions(mask[..|mask| - 1]) + (if mask[|mask| - 1] then [|mask| - 1] else [])
  }

  predicate StrictlyIncreasing(ix: seq<nat>) {
    forall a, b :: 0 <= a < b < |ix| ==> ix[a] < ix[b]
  }

  lemma {:induction false} SetPositionsFacts(mask: seq<bool>)
    ensures var ix := SetPositions(mask);
      StrictlyIncreasing(ix) &&
      (forall j :: 0 <= j < |ix| ==> ix[j] < |mask| && mask[ix[j]])
    decreases |mask|
  {
    if mask != [] {
      var n := |mask| - 1;
      SetPositionsFacts(mask[..n]);
      var ix0 := SetPositions(mask[..n]);
      var ix := SetPositions(mask);
      assert ix == ix0 + (if mask[n] then [n] else []);
      forall j | 0 <= j < |ix| ensures ix[j] < |mask| && mask[ix[j]] {
        if j < |ix0| {
          assert ix[j] == ix0[j] && mask[..n][ix0[j]] == mask[ix0[j]];
        }
      }
      forall a, b | 0 <= a < b < |ix| ensures ix[a] < ix[b] {
        if b < |ix0| {
          assert ix[a] == ix0[a] && ix[b] == ix0[b];
        } else {
          assert ix[a] == ix0[a] && ix0[a] < n;
        }
      }
    }
  }

  lemma {:induction false} SetPositionsComplete(mask: seq<bool>, i: nat)
    requires i < |mask| && mask[i]
    ensures i in SetPositions(mask)
    decreases |mask|
  {
    var n := |mask| - 1;
    if i < n {
      assert mask[..n][i];
      SetPositionsComplete(mask[..n], i);
    }
  }

  lemma {:induction false} SelectAt<T>(s: seq<T>, mask: seq<bool>)
    requires |s| == |mask|
    ensures var r, ix := Select(s, mask), SetPositions(mask);
      |r| == |ix| && forall j :: 0 <= j < |ix| ==> ix[j] < |s| && r[j] == s[ix[j]]
    decreases |s|
  {
    if s != [] {
      var n := |s| - 1;
      SelectAt(s[..n], mask[..n]);
      var r0, ix0 := Select(s[..n], mask[..n]), SetPositions(mask[..n]);
      var r, ix := Select(s, mask), SetPositions(mask);
      assert mask[..|s| - 1] == mask[..n];
      assert r == r0 + (if mask[n] then [s[n]] else []);
      assert ix == ix0 + (if mask[n] then [n] else []);
      forall j | 0 <= j < |ix| ensures ix[j] < |s| && r[j] == s[ix[j]] {
        if j < |ix0| {
          assert r[j] == r0[j] && ix[j] == ix0[j];
          assert s[..n][ix0[j]] == s[ix0[j]];
        }
      }
    }
  }

  /** Select keeps exactly the masked entries, in order: its j-th entry is the
      entry at the j-th set position, the positions strictly increase, and a
      position is among them iff its bit is set. */
  lemma SelectExactly<T>(s: seq<T>, mask: seq<bool>)
    requires |s| == |mask|
    ensures var r, ix := Select(s, mask), SetPositions(mask);
      |r| == |ix| &&
      StrictlyIncreasing(ix) &&
      (forall j :: 0 <= j < |ix| ==> ix[j] < |s| && mask[ix[j]] && r[j] == s[ix[j]]) &&
      (forall i :: 0 <= i < |s| && mask[i] ==> i in ix)
  {
    SetPositionsFacts(mask);
    SelectAt(s, mask);
    forall i | 0 <= i < |s| && mask[i] ensures i in SetPositions(mask) {
      SetPositionsComplete(mask, i);
    }
  }

  /** Every selected entry is one of the input's: a selection is a sub-multiset. */
  lemma {:induction false} SelectSubMultiset<T>(s: seq<T>, mask: seq<bool>)
    requires |s| == |mask|
    ensures multiset(Select(s, mask)) <= multiset(s)
    decreases |s|
  {
    if s != [] {
      var n := |s| - 1;
      SelectSubMultiset(s[..n], mask[..n]);
      assert s == s[..n] + [s[n]];
    }
  }

  /** Every selected entry satisfies a property that every masked entry has. */
  lemma {:induction false} SelectSatisfies<T>(s: seq<T>, mask: seq<bool>, P: T -> bool)
    requires |s| == |mask|
    requires forall i :: 0 <= i < |s| && mask[i] ==> P(s[i])
    ensures forall x :: x in Select(s, mask) ==> P(x)
    decreases |s|
  {
    if s != [] {
      var n := |s| - 1;
      forall i | 0 <= i < n && mask[..n][i] ensures P(s[..n][i]) {
        assert mask[..n][i] == mask[i] && s[..n][i] == s[i];
      }
      SelectSatisfies(s[..n], mask[..n], P);
    }
  }

  /** An all-false mask selects nothing. */
  lemma {:induction false} SelectNone<T>(s: seq<T>, mask: seq<bool>)
    requires |s| == |mask| && forall i :: 0 <= i < |mask| ==> !mask[i]
    ensures Select(s, mask) == []
    decreases |s|
  {
    if s != [] {
      SelectNone(s[..|s| - 1], mask[..|s| - 1]);
    }
  }

  /** Entries past the last set bit do not change a selection. */
  lemma {:induction false} SelectDropUnsetTail<T>(s: seq<T>, mask: seq<bool>, n: nat)
    requires |s| == |mask| && n <= |s|
    requires forall i :: n <= i < |s| ==> !mask[i]
    ensures Select(s, mask) == Select(s[..n], mask[..n])
    decreases |s| - n
  {
    if n < |s| {
      var m := |s| - 1;
      assert s[..m][..n] == s[..n] && mask[..m][..n] == mask[..n];
      SelectDropUnsetTail(s[..m], mask[..m], n);
    } else {
      assert s[..n] == s && mask[..n] == mask;
    }
  }

  /** The prefix of a selection: extending the input by one entry extends the
      selection by that entry iff its bit is set (the loop step). */
  lemma SelectStep<T>(s: seq<T>, mask: seq<bool>, i: nat)
    requires |s| == |mask| && i < |s|
    ensures Select(s[..i + 1], mask[..i + 1]) ==
            Select(s[..i], mask[..i]) + (if mask[i] then [s[i]] else [])
  {
    assert s[..i + 1][..i] == s[..i];
    assert mask[..i + 1][..i] == mask[..i];
  }

  // ---------------------------------------------------------------------------
  // Stable sort by a real-valued key (ascending).

  predicate SortedBy<T>(s: seq<T>, key: T -> real) {
    forall i, j :: 0 <= i < j < |s| ==> key(s[i]) <= key(s[j])
  }

  /** Inserts x before the first entry whose key is not smaller than x's. */
  function Insert<T>(x: T, s: seq<T>, key: T -> real): seq<T>
    decreases |s|
  {
    if s == [] then [x]
    else if key(x) <= key(s[0]) then [x] + s
    else [s[0]] + Insert(x, s[1..], key)
  }

  /** Insertion sort: what Python's stable `list.sort(key=key)` produces. */
  function SortBy<T>(s: seq<T>, key: T -> real): seq<T>
    decreases |s|
  {
    if s == [] then [] else Insert(s[0], SortBy(s[1..], key), key)
  }

  /** The entries of s whose key equals v, in their order in s. */
  function KeyClass<T>(s: seq<T>, key: T -> real, v: real): seq<T>
    decreases |s|
  {
    if s == [] then []
    else (if key(s[0]) == v then [s[0]] else []) + KeyClass(s[1..], key, v)
  }

  lemma {:induction false} InsertMultiset<T>(x: T, s: seq<T>, key: T -> real)
    ensures multiset(Insert(x, s, key)) == multiset(s) + multiset{x}
    ensures |Insert(x, s, key)| == |s| + 1
    ensures Insert(x, s, key)[0] == x || (s != [] && Insert(x, s, key)[0] == s[0])
    decreases |s|
  {
    if s != [] && key(x) > key(s[0]) {
      InsertMultiset(x, s[1..], key);
      assert s == [s[0]] + s[1..];
    }
  }

  lemma {:induction false} InsertSorted<T>(x: T, s: seq<T>, key: T -> real)
    requires SortedBy(s, key)
    ensures SortedBy(Insert(x, s, key), key)
    decreases |s|
  {
    if s != [] && key(x) > key(s[0]) {
      var t := Insert(x, s[1..], key);
      InsertSorted(x, s[1..], key);
      InsertMultiset(x, s[1..], key);
      var u := [s[0]] + t;
      assert key(s[0]) <= key(t[0]) by {
        if t[0] != x {
          assert s[1..] != [] && t[0] == s[1];
        }
      }
      forall i, j | 0 <= i < j < |u| ensures key(u[i]) <= key(u[j]) {
        if i == 0 {
          assert u[j] == t[j - 1];
          if j > 1 {
            assert key(t[0]) <= key(t[j - 1]);
          }
        } else {
          assert u[i] == t[i - 1] && u[j] == t[j - 1];
        }
      }
    }
  }

  /** The key class of an entry followed by a list. */
  lemma KeyClassCons<T>(y: T, s: seq<T>, key: T -> real, v: real)
    ensures KeyClass([y] + s, key, v) == (if key(y) == v then [y] else []) + KeyClass(s, key, v)
  {
    assert ([y] + s)[0] == y && ([y] + s)[1..] == s;
  }

  lemma {:induction false} InsertKeyClass<T>(x: T, s: seq<T>, key: T -> real, v: real)
    ensures KeyClass(Insert(x, s, key), key, v) ==
            (if key(x) == v then [x] else []) + KeyClass(s, key, v)
    decreases |s|
  {
    if s == [] {
      KeyClassCons(x, s, key, v);
      assert [x] + s == [x];
    } else if key(x) <= key(s[0]) {
      KeyClassCons(x, s, key, v);
    } else {
      var t := Insert(x, s[1..], key);
      InsertKeyClass(x, s[1..], key, v);
      KeyClassCons(s[0], t, key, v);
      KeyClassCons(s[0], s[1..], key, v);
      assert [s[0]] + s[1..] == s;
      var hx: seq<T> := if key(x) == v then [x] else [];
      var hs: seq<T> := if key(s[0]) == v then [s[0]] else [];
      assert hx == [] || hs == [];
      calc {
        KeyClass(Insert(x, s, key), key, v);
        KeyClass([s[0]] + t, key, v);
        hs + KeyClass(t, key, v);
        hs + (hx + KeyClass(s[1..], key, v));
        hx + (hs + KeyClass(s[1..], key, v));
        hx + KeyClass(s, key, v);
      }
    }
  }

  lemma {:induction false} SortByMultiset<T>(s: seq<T>, key: T -> real)
    ensures multiset(SortBy(s, key)) == multiset(s)
    ensures |SortBy(s, key)| == |s|
    decreases |s|
  {
    if s != [] {
      var t := SortBy(s[1..], key);
      SortByMultiset(s[1..], key);
      InsertMultiset(s[0], t, key);
      assert s == [s[0]] + s[1..];
    }
  }

  lemma {:induction false} SortBySorted<T>(s: seq<T>, key: T -> real)
    ensures SortedBy(SortBy(s, key), key)
    decreases |s|
  {
    if s != [] {
      SortBySorted(s[1..], key);
      InsertSorted(s[0], SortBy(s[1..], key), key);
    }
  }

  /** The sort returns its input reordered so that keys never decrease. */
  lemma SortByPermutation<T>(s: seq<T>, key: T -> real)
    ensures SortedBy(SortBy(s, key), key)
    ensures multiset(SortBy(s, key)) == multiset(s)
    ensures |SortBy(s, key)| == |s|
  {
    SortByMultiset(s, key);
    SortBySorted(s, key);
  }

  /** Stability: for every key value, the entries carrying it keep the relative
      order they had in the input. */
  lemma {:induction false} SortByStable<T>(s: seq<T>, key: T -> real)
    ensures forall v :: KeyClass(SortBy(s, key), key, v) == KeyClass(s, key, v)
    decreases |s|
  {
    if s != [] {
      SortByStable(s[1..], key);
      forall v ensures KeyClass(SortBy(s, key), key, v) == KeyClass(s, key, v) {
        InsertKeyClass(s[0], SortBy(s[1..], key), key, v);
      }
    }
  }
}
