/**
 * `Array.prototype.sort` with a comparator: `le(a, b)` holds when the comparator
 * lets `a` precede `b` (it returns a value `<= 0`). The listing pages sort both
 * as a pure expression (`[...xs].sort(cmp)` inside a filter chain) and in place
 * on a local array. Both are the same stable insertion sort: an element
 * moves only past elements it may not follow.
 */
module Sorting {
  import opened Lists

  /** The comparator orders every pair and is transitive. */
  ghost predicate TotalPreorder<T(!new)>(le: (T, T) -> bool) {
    && (forall a, b :: le(a, b) || le(b, a))
    && (forall a, b, c :: le(a, b) && le(b, c) ==> le(a, c))
  }

  ghost predicate SortedBy<T>(s: seq<T>, le: (T, T) -> bool) {
    forall i, j :: 0 <= i < j < |s| ==> le(s[i], s[j])
  }

  /** The elements the comparator ranks level with `z`: it returns 0 comparing them either way. */
  function LevelWith<T>(le: (T, T) -> bool, z: T): T -> bool {
    (y: T) => le(y, z) && le(z, y)
  }

  /** Stability: the elements of each rank appear in `r` in the order they have in `s`. */
  ghost predicate Stable<T(!new)>(r: seq<T>, s: seq<T>, le: (T, T) -> bool) {
    forall z :: Keep(r, LevelWith(le, z)) == Keep(s, LevelWith(le, z))
  }

  /** Where `x`, coming after every element of `t`, lands: past all the elements it may follow. */
  function InsertPos<T>(x: T, t: seq<T>, le: (T, T) -> bool): (k: nat)
    ensures k <= |t|
    ensures forall j :: k <= j < |t| ==> !le(t[j], x)
    ensures 0 < k ==> le(t[k - 1], x)
  {
    if t == [] || le(t[|t| - 1], x) then |t| else InsertPos(x, t[..|t| - 1], le)
  }

  /** One step of a stable insertion sort: `x` joins the ordered `t` behind its equals. */
  function Insert<T(!new)>(x: T, t: seq<T>, le: (T, T) -> bool): (r: seq<T>)
    requires TotalPreorder(le)
    requires SortedBy(t, le)
    ensures SortedBy(r, le)
    ensures multiset(r) == multiset(t) + multiset{x}
    ensures Stable(r, t + [x], le)
  {
    var k := InsertPos(x, t, le);
    InsertSorted(x, t, le, k);
    InsertStable(x, t, le, k);
    SpliceCount(x, t, k);
    t[..k] + [x] + t[k..]
  }

  lemma SpliceCount<T>(x: T, t: seq<T>, k: nat)
    requires k <= |t|
    ensures multiset(t[..k] + [x] + t[k..]) == multiset(t) + multiset{x}
  {
    assert t == t[..k] + t[k..];
  }

  lemma InsertSorted<T(!new)>(x: T, t: seq<T>, le: (T, T) -> bool, k: nat)
    requires TotalPreorder(le) && SortedBy(t, le) && k == InsertPos(x, t, le)
    ensures SortedBy(t[..k] + [x] + t[k..], le)
  {
    var r := t[..k] + [x] + t[k..];
    forall i, j | 0 <= i < j < |r| ensures le(r[i], r[j]) {
      if j < k {
        assert r[i] == t[i] && r[j] == t[j];
      } else if j == k {
        assert r[i] == t[i] && r[j] == x;
        if i < k - 1 {
          assert le(t[i], t[k - 1]);
        }
      } else if i == k {
        assert r[j] == t[j - 1] && !le(t[j - 1], x);
      } else if i < k {
        assert r[i] == t[i] && r[j] == t[j - 1];
      } else {
        assert r[i] == t[i - 1] && r[j] == t[j - 1];
      }
    }
  }

  /** Nothing that `x` passes over ranks level with it, so each rank keeps its order. */
  lemma InsertStable<T(!new)>(x: T, t: seq<T>, le: (T, T) -> bool, k: nat)
    requires TotalPreorder(le) && k == InsertPos(x, t, le)
    ensures Stable(t[..k] + [x] + t[k..], t + [x], le)
  {
    forall z ensures Keep(t[..k] + [x] + t[k..], LevelWith(le, z)) == Keep(t + [x], LevelWith(le, z)) {
      InsertKeepsRank(x, t, le, k, z);
    }
  }

  lemma InsertKeepsRank<T(!new)>(x: T, t: seq<T>, le: (T, T) -> bool, k: nat, z: T)
    requires TotalPreorder(le) && k == InsertPos(x, t, le)
    ensures Keep(t[..k] + [x] + t[k..], LevelWith(le, z)) == Keep(t + [x], LevelWith(le, z))
  {
    var f := LevelWith(le, z);
    if f(x) {
      forall i | 0 <= i < |t[k..]| ensures !f(t[k..][i]) {
        assert !le(t[k + i], x);
      }
      KeepNone(t[k..], f);
    }
    KeepMove(t[..k], x, t[k..], f);
    assert t[..k] + t[k..] == t;
  }

  /** Moving `x` behind `b` changes no filter that keeps `x` only when it keeps nothing of `b`. */
  lemma KeepMove<T(!new)>(a: seq<T>, x: T, b: seq<T>, f: T -> bool)
    requires f(x) ==> Keep(b, f) == []
    ensures Keep(a + [x] + b, f) == Keep(a + b + [x], f)
  {
    calc {
      Keep(a + [x] + b, f);
    == { KeepAppend(a + [x], b, f); }
      Keep(a + [x], f) + Keep(b, f);
    == { KeepAppend(a, [x], f); }
      Keep(a, f) + Keep([x], f) + Keep(b, f);
    == { if f(x) { assert Keep(b, f) == []; } else { assert Keep([x], f) == []; } }
      Keep(a, f) + Keep(b, f) + Keep([x], f);
    == { KeepAppend(a, b, f); }
      Keep(a + b, f) + Keep([x], f);
    == { KeepAppend(a + b, [x], f); }
      Keep(a + b + [x], f);
    }
  }

  /** `[...s].sort(cmp)`: an ordered permutation of `s` that keeps equal elements in their order. */
  function Sort<T(!new)>(s: seq<T>, le: (T, T) -> bool): (r: seq<T>)
    requires TotalPreorder(le)
    ensures SortedBy(r, le)
    ensures multiset(r) == multiset(s)
    ensures Stable(r, s, le)
  {
    if s == [] then []
    else
      var p, x := s[..|s| - 1], s[|s| - 1];
      assert s == p + [x];
      var q := Sort(p, le);
      var r := Insert(x, q, le);
      StableStep(r, q, p, x, le);
      r
  }

  /** Inserting the last element into a stable sort of the others stably sorts the whole. */
  lemma StableStep<T(!new)>(r: seq<T>, q: seq<T>, p: seq<T>, x: T, le: (T, T) -> bool)
    requires Stable(r, q + [x], le) && Stable(q, p, le)
    ensures Stable(r, p + [x], le)
  {
    forall z ensures Keep(r, LevelWith(le, z)) == Keep(p + [x], LevelWith(le, z)) {
      KeepAppend(q, [x], LevelWith(le, z));
      KeepAppend(p, [x], LevelWith(le, z));
    }
  }

  /**
   * An ordered list is fixed by the order of each rank: two ordered lists
   * that agree rank by rank are the same list. So `Sort` is the only stable
   * sort, and whatever is ordered and stable with respect to `s` is `Sort(s)`.
   */
  lemma {:induction false} StableUnique<T(!new)>(r1: seq<T>, r2: seq<T>, le: (T, T) -> bool)
    requires TotalPreorder(le) && SortedBy(r1, le) && SortedBy(r2, le)
    requires Stable(r1, r2, le)
    ensures r1 == r2
  {
    if r1 == [] || r2 == [] {
      if r1 != [] || r2 != [] {
        RankNotEmpty(if r1 == [] then r2 else r1, le);
        assert false;
      }
    } else {
      SameHead(r1, r2, le);
      forall z ensures Keep(r1[1..], LevelWith(le, z)) == Keep(r2[1..], LevelWith(le, z)) {
        var f := LevelWith(le, z);
        assert Keep(r1, f) == Keep(r2, f);
        if f(r1[0]) {
          assert Keep(r1[1..], f) == Keep(r1, f)[1..];
          assert Keep(r2[1..], f) == Keep(r2, f)[1..];
        }
      }
      StableUnique(r1[1..], r2[1..], le);
      assert r1 == [r1[0]] + r1[1..] && r2 == [r2[0]] + r2[1..];
    }
  }

  /** A list holds the rank of its head. */
  lemma RankNotEmpty<T(!new)>(r: seq<T>, le: (T, T) -> bool)
    requires TotalPreorder(le) && r != []
    ensures Keep(r, LevelWith(le, r[0])) != []
  {
    assert LevelWith(le, r[0])(r[0]);
  }

  /** Two ordered lists that agree rank by rank start with the same element. */
  lemma SameHead<T(!new)>(r1: seq<T>, r2: seq<T>, le: (T, T) -> bool)
    requires TotalPreorder(le) && SortedBy(r1, le) && SortedBy(r2, le)
    requires Stable(r1, r2, le) && r1 != [] && r2 != []
    ensures r1[0] == r2[0]
  {
    var a, b := r1[0], r2[0];
    assert LevelWith(le, a)(a) && LevelWith(le, b)(b);
    assert Keep(r1, LevelWith(le, a)) == Keep(r2, LevelWith(le, a));
    assert Keep(r1, LevelWith(le, b)) == Keep(r2, LevelWith(le, b));
    HeadPrecedes(r2, le, a);
    HeadPrecedes(r1, le, b);
    assert LevelWith(le, a)(b);
  }

  /** The head of an ordered list precedes every rank the list holds. */
  lemma HeadPrecedes<T(!new)>(r: seq<T>, le: (T, T) -> bool, z: T)
    requires TotalPreorder(le) && SortedBy(r, le) && r != []
    requires Keep(r, LevelWith(le, z)) != []
    ensures le(r[0], z)
  {
    var c := Keep(r, LevelWith(le, z))[0];
    KeepCount(r, LevelWith(le, z));
    assert c in multiset(Keep(r, LevelWith(le, z)));
    assert c in multiset(r);
    var i :| 0 <= i < |r| && r[i] == c;
    assert le(r[0], r[i]);
  }

  /** Whatever is ordered and keeps each rank of `s` in its order is the stable sort of `s`. */
  lemma StableSortIsSort<T(!new)>(r: seq<T>, s: seq<T>, le: (T, T) -> bool)
    requires TotalPreorder(le) && SortedBy(r, le) && Stable(r, s, le)
    ensures r == Sort(s, le)
  {
    var q := Sort(s, le);
    forall z ensures Keep(r, LevelWith(le, z)) == Keep(q, LevelWith(le, z)) {
      assert Keep(r, LevelWith(le, z)) == Keep(s, LevelWith(le, z));
    }
    StableUnique(r, q, le);
  }

  /** Two entries whose names are out of order: the list is not in name order. */
  lemma OutOfNameOrder<T>(r: seq<T>, name: T -> string, i: nat, j: nat)
    requires i < j < |r| && !NameLe(name(r[i]), name(r[j]))
    ensures !SortedBy(r, ByName(name))
  {
    assert !ByName(name)(r[i], r[j]);
  }

  /** `a.sort(cmp)` in place: afterwards `a` holds what `Sort` makes of its old contents. */
  method SortInPlace<T(!new)>(a: array<T>, le: (T, T) -> bool)
    requires TotalPreorder(le)
    modifies a
    ensures a[..] == Sort(old(a[..]), le)
  {
    ghost var s := a[..];
    for i := 0 to a.Length
      invariant a[..i] == Sort(s[..i], le)
      invariant a[i..] == s[i..]
    {
      ghost var before := a[..];
      InsertAt(a, i, le);
      SortStep(s, i, le, before, a[..]);
    }
    assert s[..a.Length] == s;
  }

  /** After `InsertAt(a, i)` the sorted prefix of `a` is one element longer. */
  lemma SortStep<T(!new)>(s: seq<T>, i: nat, le: (T, T) -> bool, before: seq<T>, after: seq<T>)
    requires TotalPreorder(le) && i < |s| == |before| == |after|
    requires before[..i] == Sort(s[..i], le) && before[i..] == s[i..]
    requires var t, k := before[..i], InsertPos(before[i], before[..i], le);
      after[..i + 1] == t[..k] + [before[i]] + t[k..]
    requires after[i + 1..] == before[i + 1..]
    ensures after[..i + 1] == Sort(s[..i + 1], le)
    ensures after[i + 1..] == s[i + 1..]
  {
    assert before[i] == s[i] && before[i + 1..] == s[i + 1..];
    SortPrefix(s, i, le);
  }

  /** Sorting one more element of `s` inserts it into the sort of those before it. */
  lemma SortPrefix<T(!new)>(s: seq<T>, i: nat, le: (T, T) -> bool)
    requires TotalPreorder(le) && i < |s|
    ensures var t := Sort(s[..i], le); var k := InsertPos(s[i], t, le);
      Sort(s[..i + 1], le) == t[..k] + [s[i]] + t[k..]
  {
    assert s[..i + 1][..i] == s[..i];
  }

  /**
   * One step of insertion sort: `a[i]` moves left past the elements it may
   * not follow, to where `Insert` puts it.
   */
  method InsertAt<T>(a: array<T>, i: nat, le: (T, T) -> bool)
    requires i < a.Length
    modifies a
    ensures var t, k := old(a[..i]), InsertPos(old(a[i]), old(a[..i]), le);
      a[..i + 1] == t[..k] + [old(a[i])] + t[k..]
    ensures a[i + 1..] == old(a[i + 1..])
  {
    ghost var t := a[..i];
    var x := a[i];
    var j := i;
    while j > 0 && !le(a[j - 1], x)
      invariant 0 <= j <= i
      invariant forall m :: 0 <= m < j ==> a[m] == t[m]
      invariant a[j] == x
      invariant forall m :: j < m <= i ==> a[m] == t[m - 1]
      invariant forall m :: j <= m < i ==> !le(t[m], x)
      invariant forall m :: i < m < a.Length ==> a[m] == old(a[m])
    {
      assert a[j - 1] == t[j - 1];
      a[j] := a[j - 1];
      a[j - 1] := x;
      j := j - 1;
    }
    assert j > 0 ==> a[j - 1] == t[j - 1];
    LandsAt(x, t, j, le);
    assert a[..i + 1] == t[..j] + [x] + t[j..];
  }

  /** `x` lands at `j` when it may follow `t[j - 1]` but none of the elements from `j` on. */
  lemma {:induction false} LandsAt<T>(x: T, t: seq<T>, j: nat, le: (T, T) -> bool)
    requires j <= |t| && (j == 0 || le(t[j - 1], x))
    requires forall m :: j <= m < |t| ==> !le(t[m], x)
    ensures InsertPos(x, t, le) == j
  {
    if j < |t| {
      LandsAt(x, t[..|t| - 1], j, le);
    }
  }

  /** `[...s]` copied into an array and sorted there with `sort(cmp)`: the stable sort of `s`. */
  method SortedCopy<T(!new)>(s: seq<T>, le: (T, T) -> bool) returns (r: seq<T>)
    requires TotalPreorder(le)
    ensures r == Sort(s, le)
  {
    var a := new T[|s|](i requires 0 <= i < |s| => s[i]);
    assert a[..] == s;
    SortInPlace(a, le);
    r := a[..];
  }

  /** Code-point lexicographic order on names, a prefix first. */
  predicate NameLe(a: string, b: string) {
    if a == [] then true
    else if b == [] then false
    else if a[0] != b[0] then a[0] < b[0]
    else NameLe(a[1..], b[1..])
  }

  lemma {:induction false} NameLeTotal(a: string, b: string)
    ensures NameLe(a, b) || NameLe(b, a)
  {
    if a != [] && b != [] && a[0] == b[0] {
      NameLeTotal(a[1..], b[1..]);
    }
  }

  lemma {:induction false} NameLeTransitive(a: string, b: string, c: string)
    requires NameLe(a, b) && NameLe(b, c)
    ensures NameLe(a, c)
  {
    if a != [] && b != [] && c != [] && a[0] == b[0] && b[0] == c[0] {
      NameLeTransitive(a[1..], b[1..], c[1..]);
    }
  }

  /** The comparator `(a, b) => key(a) - key(b)`: smaller keys first. */
  function Ascending<T>(key: T -> real): (T, T) -> bool {
    (a: T, b: T) => key(a) <= key(b)
  }

  /** The comparator `(a, b) => key(b) - key(a)`: larger keys first. */
  function Descending<T>(key: T -> real): (T, T) -> bool {
    (a: T, b: T) => key(b) <= key(a)
  }

  /** The comparator `(a, b) => name(a).localeCompare(name(b))`, on code points. */
  function ByName<T>(name: T -> string): (T, T) -> bool {
    (a: T, b: T) => NameLe(name(a), name(b))
  }

  /** Under a key comparator, ranking level is having the same key. */
  lemma DescendingLevel<T>(key: T -> real, z: T, y: T)
    ensures LevelWith(Descending(key), z)(y) == (key(y) == key(z))
  {
  }

  lemma AscendingTotal<T(!new)>(key: T -> real)
    ensures TotalPreorder(Ascending(key))
  {
  }

  lemma DescendingTotal<T(!new)>(key: T -> real)
    ensures TotalPreorder(Descending(key))
  {
  }

  /** Comparing names orders every pair and is transitive. */
  lemma ByNameTotal<T(!new)>(name: T -> string)
    ensures TotalPreorder(ByName(name))
  {
    forall a, b ensures ByName(name)(a, b) || ByName(name)(b, a) {
      NameLeTotal(name(a), name(b));
    }
    forall a, b, c | ByName(name)(a, b) && ByName(name)(b, c) ensures ByName(name)(a, c) {
      NameLeTransitive(name(a), name(b), name(c));
    }
  }

  /** Two names compare as their first differing characters do. */
  lemma {:induction false} NameLeFirstDifference(a: string, b: string, k: nat)
    requires k < |a| && k < |b| && a[k] != b[k]
    requires forall i :: 0 <= i < k ==> a[i] == b[i]
    ensures NameLe(a, b) == (a[k] < b[k])
  {
    if k > 0 {
      NameLeFirstDifference(a[1..], b[1..], k - 1);
    }
  }
}
