/**
 * The list idioms the storefront applies to its records: `filter` on a key,
 * `findIndex`, `some`, `map` over the records with a given key, and the
 * "remove if present, append otherwise" toggle. Records are compared through
 * a key function, as the source compares ids (or id, size and colour).
 */
module Lists {

  /** `s.some(x => keyOf(x) === k)`. */
  predicate HasKey<T(!new), K(==,!new)>(s: seq<T>, keyOf: T -> K, k: K) {
    exists i | 0 <= i < |s| :: keyOf(s[i]) == k
  }

  /** No two elements share a key. */
  predicate UniqueKeys<T(!new), K(==,!new)>(s: seq<T>, keyOf: T -> K) {
    forall i, j :: 0 <= i < j < |s| ==> keyOf(s[i]) != keyOf(s[j])
  }

  /** The identity key: a list of ids compared as themselves. */
  function Same<T>(x: T): T {
    x
  }

  /** Under the identity key, having the key is being a member: `includes`. */
  lemma HasKeySame<T(!new)>(s: seq<T>, x: T)
    ensures HasKey(s, Same, x) <==> x in s
  {
    if x in s {
      var i :| 0 <= i < |s| && s[i] == x;
      assert Same(s[i]) == x;
    }
  }

  /**
   * `s.filter(x => keyOf(x) !== k)`: exactly the elements with another key
   * survive, and the length drops exactly when the key was present.
   */
  function Without<T(!new), K(==,!new)>(s: seq<T>, keyOf: T -> K, k: K): (r: seq<T>)
    ensures |r| <= |s|
    ensures forall x :: x in r <==> x in s && keyOf(x) != k
    ensures !HasKey(r, keyOf, k)
    ensures |r| == |s| <==> !HasKey(s, keyOf, k)
  {
    if s == [] then []
    else
      var rest := Without(s[1..], keyOf, k);
      assert forall x :: x in s <==> x == s[0] || x in s[1..];
      assert HasKey(s, keyOf, k) <==> keyOf(s[0]) == k || HasKey(s[1..], keyOf, k) by {
        if HasKey(s[1..], keyOf, k) {
          var i :| 0 <= i < |s[1..]| && keyOf(s[1..][i]) == k;
          assert keyOf(s[i + 1]) == k;
        }
        if HasKey(s, keyOf, k) && keyOf(s[0]) != k {
          var i :| 0 <= i < |s| && keyOf(s[i]) == k;
          assert keyOf(s[1..][i - 1]) == k;
        }
      }
      if keyOf(s[0]) == k then rest else [s[0]] + rest
  }

  /** Filtering keeps the order: it distributes over concatenation. */
  lemma {:induction false} WithoutAppend<T(!new), K(!new)>(a: seq<T>, b: seq<T>, keyOf: T -> K, k: K)
    ensures Without(a + b, keyOf, k) == Without(a, keyOf, k) + Without(b, keyOf, k)
  {
    if a == [] {
      assert a + b == b;
    } else {
      assert (a + b)[1..] == a[1..] + b;
      WithoutAppend(a[1..], b, keyOf, k);
    }
  }

  /** Removing an absent key changes nothing. */
  lemma {:induction false} WithoutAbsent<T(!new), K(!new)>(s: seq<T>, keyOf: T -> K, k: K)
    requires !HasKey(s, keyOf, k)
    ensures Without(s, keyOf, k) == s
  {
    if s != [] {
      assert keyOf(s[0]) != k;
      WithoutAbsent(s[1..], keyOf, k);
    }
  }

  /** Other keys are present after the removal exactly when they were before. */
  lemma WithoutOtherKeys<T(!new), K(!new)>(s: seq<T>, keyOf: T -> K, k: K, j: K)
    requires j != k
    ensures HasKey(Without(s, keyOf, k), keyOf, j) <==> HasKey(s, keyOf, j)
  {
    var r := Without(s, keyOf, k);
    if HasKey(s, keyOf, j) {
      var i :| 0 <= i < |s| && keyOf(s[i]) == j;
      assert s[i] in r;
    }
    if HasKey(r, keyOf, j) {
      var i :| 0 <= i < |r| && keyOf(r[i]) == j;
      assert r[i] in s;
    }
  }

  /** A filtered list inherits unique keys. */
  lemma {:induction false} WithoutUnique<T(!new), K(!new)>(s: seq<T>, keyOf: T -> K, k: K)
    requires UniqueKeys(s, keyOf)
    ensures UniqueKeys(Without(s, keyOf, k), keyOf)
  {
    if s != [] {
      var rest := Without(s[1..], keyOf, k);
      WithoutUnique(s[1..], keyOf, k);
      if keyOf(s[0]) != k {
        forall x | x in rest ensures keyOf(x) != keyOf(s[0]) {
          var i :| 0 <= i < |s[1..]| && s[1..][i] == x;
          assert s[i + 1] == x;
        }
        var r := [s[0]] + rest;
        forall i, j | 0 <= i < j < |r| ensures keyOf(r[i]) != keyOf(r[j]) {
          assert r[j] == rest[j - 1];
          if i > 0 {
            assert r[i] == rest[i - 1];
          } else {
            assert rest[j - 1] in rest;
          }
        }
      }
    }
  }

  /** `s.filter(x => keyOf(x) === k)`: exactly the elements with key `k`. */
  function Only<T(!new), K(==,!new)>(s: seq<T>, keyOf: T -> K, k: K): (r: seq<T>)
    ensures |r| <= |s|
    ensures forall x :: x in r <==> x in s && keyOf(x) == k
  {
    if s == [] then []
    else
      var rest := Only(s[1..], keyOf, k);
      assert forall x :: x in s <==> x == s[0] || x in s[1..];
      if keyOf(s[0]) == k then [s[0]] + rest else rest
  }

  /** `s.filter(keep)`: the elements that pass, in the order they come. */
  function Keep<T(!new)>(s: seq<T>, keep: T -> bool): (r: seq<T>)
    ensures |r| <= |s|
    ensures forall i :: 0 <= i < |r| ==> keep(r[i])
  {
    if s == [] then []
    else
      var rest := Keep(s[1..], keep);
      if keep(s[0]) then [s[0]] + rest else rest
  }

  /** A filter that passes everything in `s` keeps `s` as it is. */
  lemma {:induction false} KeepAll<T(!new)>(s: seq<T>, keep: T -> bool)
    requires forall i :: 0 <= i < |s| ==> keep(s[i])
    ensures Keep(s, keep) == s
  {
    if s != [] {
      KeepAll(s[1..], keep);
      assert s == [s[0]] + s[1..];
    }
  }

  /** Each element that passes is kept as often as it occurs, each other one is dropped. */
  lemma {:induction false} KeepCount<T(!new)>(s: seq<T>, keep: T -> bool)
    ensures forall x :: multiset(Keep(s, keep))[x] == if keep(x) then multiset(s)[x] else 0
  {
    if s != [] {
      KeepCount(s[1..], keep);
      assert s == [s[0]] + s[1..];
      assert multiset(s) == multiset{s[0]} + multiset(s[1..]);
    }
  }

  /** Filtering a concatenation filters each part: `filter` keeps the order of what it keeps. */
  lemma {:induction false} KeepAppend<T(!new)>(a: seq<T>, b: seq<T>, keep: T -> bool)
    ensures Keep(a + b, keep) == Keep(a, keep) + Keep(b, keep)
  {
    if a == [] {
      assert a + b == b;
    } else {
      assert (a + b)[1..] == a[1..] + b;
      KeepAppend(a[1..], b, keep);
    }
  }

  /** A filter that passes nothing in `s` leaves nothing. */
  lemma {:induction false} KeepNone<T(!new)>(s: seq<T>, keep: T -> bool)
    requires forall i :: 0 <= i < |s| ==> !keep(s[i])
    ensures Keep(s, keep) == []
  {
    if s != [] {
      KeepNone(s[1..], keep);
    }
  }

  /** Two tests that agree on every element filter alike. */
  lemma {:induction false} KeepAgree<T(!new)>(s: seq<T>, f: T -> bool, g: T -> bool)
    requires forall x :: f(x) == g(x)
    ensures Keep(s, f) == Keep(s, g)
  {
    if s != [] {
      KeepAgree(s[1..], f, g);
    }
  }

  /** Filtering twice is filtering once by both tests: `s.filter(f).filter(g)`. */
  lemma {:induction false} KeepTwice<T(!new)>(s: seq<T>, f: T -> bool, g: T -> bool, both: T -> bool)
    requires forall x :: both(x) == (f(x) && g(x))
    ensures Keep(Keep(s, f), g) == Keep(s, both)
  {
    if s != [] {
      KeepTwice(s[1..], f, g, both);
      if f(s[0]) {
        assert ([s[0]] + Keep(s[1..], f))[1..] == Keep(s[1..], f);
      }
    }
  }

  /** What `filter` keeps of one entry. */
  function Kept<T>(x: T, keep: T -> bool): (r: seq<T>)
    ensures r == [] || r == [x]
  {
    if keep(x) then [x] else []
  }

  /** `filter` on six entries, three at a time. */
  lemma KeepWritten<T(!new)>(s: seq<T>, keep: T -> bool)
    requires |s| == 6
    ensures Keep(s, keep) == (Kept(s[0], keep) + (Kept(s[1], keep) + Kept(s[2], keep)))
      + (Kept(s[3], keep) + (Kept(s[4], keep) + Kept(s[5], keep)))
  {
    assert s == s[..3] + s[3..];
    KeepAppend(s[..3], s[3..], keep);
    KeepThree(s[..3], keep);
    KeepThree(s[3..], keep);
  }

  /** `filter` on three entries. */
  lemma KeepThree<T(!new)>(s: seq<T>, keep: T -> bool)
    requires |s| == 3
    ensures Keep(s, keep) == Kept(s[0], keep) + (Kept(s[1], keep) + Kept(s[2], keep))
  {
    KeepFirst(s, keep);
    KeepFirst(s[1..], keep);
    KeepFirst(s[2..], keep);
    assert s[1..][1..] == s[2..];
    assert s[2..][1..] == [];
  }

  /** One step of `filter`: the first entry, then the rest. */
  lemma KeepFirst<T(!new)>(s: seq<T>, keep: T -> bool)
    requires s != []
    ensures Keep(s, keep) == Kept(s[0], keep) + Keep(s[1..], keep)
  {
  }

  lemma {:induction false} OnlyAppend<T(!new), K(!new)>(a: seq<T>, b: seq<T>, keyOf: T -> K, k: K)
    ensures Only(a + b, keyOf, k) == Only(a, keyOf, k) + Only(b, keyOf, k)
  {
    if a == [] {
      assert a + b == b;
    } else {
      assert (a + b)[1..] == a[1..] + b;
      OnlyAppend(a[1..], b, keyOf, k);
    }
  }

  /** Selecting a key from a list that holds no other key selects everything. */
  lemma {:induction false} OnlyAll<T(!new), K(!new)>(s: seq<T>, keyOf: T -> K, k: K)
    requires forall i :: 0 <= i < |s| ==> keyOf(s[i]) == k
    ensures Only(s, keyOf, k) == s
  {
    if s != [] {
      OnlyAll(s[1..], keyOf, k);
    }
  }

  /** Selecting a key from a list that does not hold it selects nothing. */
  lemma {:induction false} OnlyNone<T(!new), K(!new)>(s: seq<T>, keyOf: T -> K, k: K)
    requires forall i :: 0 <= i < |s| ==> keyOf(s[i]) != k
    ensures Only(s, keyOf, k) == []
  {
    if s != [] {
      OnlyNone(s[1..], keyOf, k);
    }
  }

  /** Removing one key leaves the selection of any other key as it was. */
  lemma {:induction false} OnlyWithout<T(!new), K(!new)>(s: seq<T>, keyOf: T -> K, k: K, j: K)
    ensures Only(Without(s, keyOf, k), keyOf, j) == if j == k then [] else Only(s, keyOf, j)
  {
    if s != [] {
      OnlyWithout(s[1..], keyOf, k, j);
      if keyOf(s[0]) != k {
        assert ([s[0]] + Without(s[1..], keyOf, k))[1..] == Without(s[1..], keyOf, k);
      }
    }
  }

  /**
   * `s.findIndex(x => keyOf(x) === k)`: -1 when the key is absent, otherwise
   * the first position holding it.
   */
  function FirstIndex<T(!new), K(==,!new)>(s: seq<T>, keyOf: T -> K, k: K): (i: int)
    ensures -1 <= i < |s|
    ensures i == -1 <==> !HasKey(s, keyOf, k)
    ensures i >= 0 ==> keyOf(s[i]) == k && forall j :: 0 <= j < i ==> keyOf(s[j]) != k
  {
    if s == [] then -1
    else if keyOf(s[0]) == k then 0
    else
      var j := FirstIndex(s[1..], keyOf, k);
      assert HasKey(s, keyOf, k) ==> HasKey(s[1..], keyOf, k) by {
        if HasKey(s, keyOf, k) {
          var i :| 0 <= i < |s| && keyOf(s[i]) == k;
          assert keyOf(s[1..][i - 1]) == k;
        }
      }
      if j < 0 then -1 else j + 1
  }

  /**
   * `s.map(x => keyOf(x) === k ? f(x) : x)`: same length, elements with key
   * `k` replaced by their image under `f`, all others left as they were.
   */
  function UpdateWhere<T(!new), K(==,!new)>(s: seq<T>, keyOf: T -> K, k: K, f: T -> T): (r: seq<T>)
    ensures |r| == |s|
    ensures forall i :: 0 <= i < |s| && keyOf(s[i]) != k ==> r[i] == s[i]
    ensures forall i :: 0 <= i < |s| && keyOf(s[i]) == k ==> r[i] == f(s[i])
  {
    if s == [] then []
    else
      var rest := UpdateWhere(s[1..], keyOf, k, f);
      assert forall i :: 1 <= i < |s| ==> s[i] == s[1..][i - 1];
      [if keyOf(s[0]) == k then f(s[0]) else s[0]] + rest
  }

  /** Updating an absent key leaves the list identical. */
  lemma UpdateAbsent<T(!new), K(!new)>(s: seq<T>, keyOf: T -> K, k: K, f: T -> T)
    requires !HasKey(s, keyOf, k)
    ensures UpdateWhere(s, keyOf, k, f) == s
  {
    var r := UpdateWhere(s, keyOf, k, f);
    forall i | 0 <= i < |s| ensures r[i] == s[i] {
      assert keyOf(s[i]) != k;
    }
  }

  /** An update that keeps keys keeps the key of every position. */
  lemma UpdateKeepsKeys<T(!new), K(!new)>(s: seq<T>, keyOf: T -> K, k: K, f: T -> T)
    requires forall x :: keyOf(f(x)) == keyOf(x)
    ensures forall i :: 0 <= i < |s| ==> keyOf(UpdateWhere(s, keyOf, k, f)[i]) == keyOf(s[i])
  {
  }

  /**
   * `s.includes(x) ? s.filter(y => y !== x) : [...s, x]` on keys: the key of
   * `x` changes membership and no other key does.
   */
  function Toggle<T(!new), K(==,!new)>(s: seq<T>, keyOf: T -> K, x: T): (r: seq<T>)
    ensures HasKey(r, keyOf, keyOf(x)) <==> !HasKey(s, keyOf, keyOf(x))
    ensures forall j :: j != keyOf(x) ==> (HasKey(r, keyOf, j) <==> HasKey(s, keyOf, j))
  {
    var k := keyOf(x);
    if HasKey(s, keyOf, k) then
      assert forall j :: j != k ==> (HasKey(Without(s, keyOf, k), keyOf, j) <==> HasKey(s, keyOf, j)) by {
        forall j | j != k {
          WithoutOtherKeys(s, keyOf, k, j);
        }
      }
      Without(s, keyOf, k)
    else
      assert keyOf((s + [x])[|s|]) == k;
      assert forall j :: HasKey(s + [x], keyOf, j) <==> HasKey(s, keyOf, j) || j == k by {
        forall j | HasKey(s + [x], keyOf, j) && j != k ensures HasKey(s, keyOf, j) {
          var i :| 0 <= i < |s + [x]| && keyOf((s + [x])[i]) == j;
          assert keyOf(s[i]) == j;
        }
        forall j | HasKey(s, keyOf, j) ensures HasKey(s + [x], keyOf, j) {
          var i :| 0 <= i < |s| && keyOf(s[i]) == j;
          assert keyOf((s + [x])[i]) == j;
        }
      }
      s + [x]
  }

  /** Toggling the same element twice restores the membership of every key. */
  lemma ToggleTwice<T(!new), K(!new)>(s: seq<T>, keyOf: T -> K, x: T, j: K)
    ensures HasKey(Toggle(Toggle(s, keyOf, x), keyOf, x), keyOf, j) <==> HasKey(s, keyOf, j)
  {
  }

  /** When the key was absent, toggling twice gives back the very same list. */
  lemma ToggleTwiceAbsent<T(!new), K(!new)>(s: seq<T>, keyOf: T -> K, x: T)
    requires !HasKey(s, keyOf, keyOf(x))
    ensures Toggle(Toggle(s, keyOf, x), keyOf, x) == s
  {
    assert keyOf((s + [x])[|s|]) == keyOf(x);
    WithoutAppend(s, [x], keyOf, keyOf(x));
    WithoutAbsent(s, keyOf, keyOf(x));
  }

  /** Appending an element whose key is absent keeps keys unique. */
  lemma AppendUnique<T(!new), K(!new)>(s: seq<T>, keyOf: T -> K, x: T)
    requires UniqueKeys(s, keyOf) && !HasKey(s, keyOf, keyOf(x))
    ensures UniqueKeys(s + [x], keyOf)
  {
    var r := s + [x];
    forall i, j | 0 <= i < j < |r| ensures keyOf(r[i]) != keyOf(r[j]) {
      assert r[i] == s[i];
      if j < |s| {
        assert r[j] == s[j];
      }
    }
  }

  /** Toggling keeps keys unique, unlike a plain append. */
  lemma ToggleUnique<T(!new), K(!new)>(s: seq<T>, keyOf: T -> K, x: T)
    requires UniqueKeys(s, keyOf)
    ensures UniqueKeys(Toggle(s, keyOf, x), keyOf)
  {
    if HasKey(s, keyOf, keyOf(x)) {
      WithoutUnique(s, keyOf, keyOf(x));
    } else {
      AppendUnique(s, keyOf, x);
    }
  }
}
