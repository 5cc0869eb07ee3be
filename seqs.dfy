/** The list idioms the pipeline relies on: comprehensions with a condition,
    element-wise maps, slicing to a cap, "the first element such that",
    duplicate removal, and Python's stable `sorted` with a numeric key. */
module Seqs {
  import opened Wrappers

  /** `[x for x in s if p(x)]`. */
  function Filter<T>(s: seq<T>, p: T -> bool): (r: seq<T>)
    ensures |r| <= |s|
  {
    if |s| == 0 then [] else (if p(s[0]) then [s[0]] else []) + Filter(s[1..], p)
  }

  /** Everything kept is from the list and satisfies the condition. */
  lemma {:induction false} FilterSound<T>(s: seq<T>, p: T -> bool)
    ensures forall i :: 0 <= i < |Filter(s, p)| ==> Filter(s, p)[i] in s && p(Filter(s, p)[i])
  {
    if |s| > 0 {
      FilterSound(s[1..], p);
      var h := if p(s[0]) then [s[0]] else [];
      var rest := Filter(s[1..], p);
      assert Filter(s, p) == h + rest;
      forall i | 0 <= i < |h + rest| ensures (h + rest)[i] in s && p((h + rest)[i]) {
        if i >= |h| {
          assert (h + rest)[i] == rest[i - |h|];
          assert rest[i - |h|] in s[1..];
        }
      }
    }
  }

  /** Everything in the list that satisfies the condition is kept. */
  lemma {:induction false} FilterComplete<T>(s: seq<T>, p: T -> bool)
    ensures forall i :: 0 <= i < |s| && p(s[i]) ==> s[i] in Filter(s, p)
  {
    if |s| > 0 {
      FilterComplete(s[1..], p);
      var h := if p(s[0]) then [s[0]] else [];
      var rest := Filter(s[1..], p);
      assert Filter(s, p) == h + rest;
      forall i | 0 <= i < |s| && p(s[i]) ensures s[i] in h + rest {
        if i > 0 {
          assert s[i] == s[1..][i - 1];
        }
      }
    }
  }

  lemma {:induction false} FilterConcat<T>(a: seq<T>, b: seq<T>, p: T -> bool)
    ensures Filter(a + b, p) == Filter(a, p) + Filter(b, p)
  {
    if |a| > 0 {
      assert (a + b)[1..] == a[1..] + b;
      FilterConcat(a[1..], b, p);
    } else {
      assert a + b == b;
    }
  }

  lemma FilterSingle<T>(x: T, p: T -> bool)
    ensures Filter([x], p) == if p(x) then [x] else []
  {
    assert [x][1..] == [];
  }

  /** An element is in the filtered list exactly when it is in the list and
      satisfies the condition. */
  lemma FilterMembers<T>(s: seq<T>, p: T -> bool)
    ensures forall x :: x in Filter(s, p) <==> x in s && p(x)
  {
    var r := Filter(s, p);
    FilterSound(s, p);
    FilterComplete(s, p);
    forall x | x in s && p(x) ensures x in r {
      var i :| 0 <= i < |s| && s[i] == x;
    }
    forall x | x in r ensures x in s && p(x) {
      var i :| 0 <= i < |r| && r[i] == x;
    }
  }

  /** Filtering a second time with the same condition changes nothing. */
  lemma {:induction false} FilterIdempotent<T>(s: seq<T>, p: T -> bool)
    ensures Filter(Filter(s, p), p) == Filter(s, p)
  {
    if |s| > 0 {
      FilterIdempotent(s[1..], p);
      var head := if p(s[0]) then [s[0]] else [];
      FilterConcat(head, Filter(s[1..], p), p);
      FilterSingle(s[0], p);
    }
  }

  /** Nothing survives a filter that nothing satisfies. */
  lemma {:induction false} FilterNone<T>(s: seq<T>, p: T -> bool)
    requires forall i :: 0 <= i < |s| ==> !p(s[i])
    ensures Filter(s, p) == []
  {
    if |s| > 0 {
      FilterNone(s[1..], p);
    }
  }

  /** `[f(x) for x in s]`. */
  function MapSeq<T, U>(s: seq<T>, f: T -> U): (r: seq<U>)
    ensures |r| == |s|
    ensures forall i :: 0 <= i < |s| ==> r[i] == f(s[i])
  {
    seq(|s|, i requires 0 <= i < |s| => f(s[i]))
  }

  lemma MapSeqSnoc<T, U>(s: seq<T>, j: nat, f: T -> U)
    requires j < |s|
    ensures MapSeq(s[..j + 1], f) == MapSeq(s[..j], f) + [f(s[j])]
  {
  }

  lemma MapSeqConcat<T, U>(a: seq<T>, b: seq<T>, f: T -> U)
    ensures MapSeq(a + b, f) == MapSeq(a, f) + MapSeq(b, f)
  {
  }

  lemma FilterMapConcat<T, U>(a: seq<T>, b: seq<T>, p: T -> bool, f: T -> U)
    ensures MapSeq(Filter(a + b, p), f) == MapSeq(Filter(a, p), f) + MapSeq(Filter(b, p), f)
  {
    FilterConcat(a, b, p);
    MapSeqConcat(Filter(a, p), Filter(b, p), f);
  }

  lemma FilterMapSingle<T, U>(x: T, p: T -> bool, f: T -> U)
    ensures MapSeq(Filter([x], p), f) == if p(x) then [f(x)] else []
  {
    FilterSingle(x, p);
  }

  lemma FilterMapPair<T, U>(x: T, y: T, p: T -> bool, f: T -> U)
    ensures MapSeq(Filter([x, y], p), f)
         == (if p(x) then [f(x)] else []) + (if p(y) then [f(y)] else [])
  {
    assert [x, y] == [x] + [y];
    FilterMapConcat([x], [y], p, f);
    FilterMapSingle(x, p, f);
    FilterMapSingle(y, p, f);
  }

  /** An element the condition rejects adds nothing to a filter-then-map. */
  lemma FilterMapSkip<T, U>(a: seq<T>, x: T, c: seq<T>, p: T -> bool, f: T -> U)
    requires !p(x)
    ensures MapSeq(Filter(a + [x] + c, p), f) == MapSeq(Filter(a + c, p), f)
  {
    FilterConcat(a + [x], c, p);
    FilterConcat(a, [x], p);
    FilterConcat(a, c, p);
    FilterSingle(x, p);
    assert Filter(a + [x], p) == Filter(a, p);
  }

  /** An element the condition accepts adds its image, in place. */
  lemma FilterMapKeep<T, U>(a: seq<T>, x: T, c: seq<T>, p: T -> bool, f: T -> U)
    requires p(x)
    ensures MapSeq(Filter(a + [x] + c, p), f) == MapSeq(Filter(a, p), f) + [f(x)] + MapSeq(Filter(c, p), f)
  {
    FilterMapConcat(a + [x], c, p, f);
    FilterMapConcat(a, [x], p, f);
    FilterMapSingle(x, p, f);
  }

  /** One more element seen by a filter-then-map comprehension. */
  lemma FilterMapSnoc<T, U>(s: seq<T>, j: nat, p: T -> bool, f: T -> U)
    requires j < |s|
    ensures MapSeq(Filter(s[..j + 1], p), f)
         == MapSeq(Filter(s[..j], p), f) + (if p(s[j]) then [f(s[j])] else [])
  {
    assert s[..j + 1] == s[..j] + [s[j]];
    FilterConcat(s[..j], [s[j]], p);
    FilterSingle(s[j], p);
    MapSeqConcat(Filter(s[..j], p), Filter([s[j]], p), f);
  }

  /** The concatenation of a list of lists. */
  function Flatten<T>(ss: seq<seq<T>>): seq<T> {
    if |ss| == 0 then [] else Flatten(ss[..|ss| - 1]) + ss[|ss| - 1]
  }

  lemma FlattenMapSnoc<T, U>(s: seq<T>, j: nat, f: T -> seq<U>)
    requires j < |s|
    ensures Flatten(MapSeq(s[..j + 1], f)) == Flatten(MapSeq(s[..j], f)) + f(s[j])
  {
    var m := MapSeq(s[..j + 1], f);
    assert m[..|m| - 1] == MapSeq(s[..j], f);
  }

  /** Python's `s[:n]` for a non-negative `n`. */
  function Take<T>(s: seq<T>, n: nat): (r: seq<T>)
    ensures |r| == if n <= |s| then n else |s|
    ensures r == s[..|r|]
  {
    if n <= |s| then s[..n] else s
  }

  predicate NoDup<T(==)>(s: seq<T>) {
    forall i, j :: 0 <= i < j < |s| ==> s[i] != s[j]
  }

  /** The distinct elements of `s`, each at the place it first occurs. */
  function Dedup<T(==)>(s: seq<T>): (r: seq<T>)
    ensures NoDup(r)
    ensures forall i :: 0 <= i < |r| ==> r[i] in s
    ensures forall i :: 0 <= i < |s| ==> s[i] in r
  {
    if |s| == 0 then []
    else
      var d := Dedup(s[..|s| - 1]);
      var x := s[|s| - 1];
      assert forall i :: 0 <= i < |s| - 1 ==> s[i] == s[..|s| - 1][i];
      if x in d then d else d + [x]
  }

  /** The index of the first element satisfying `p`, if any. */
  function FirstIndex<T>(s: seq<T>, p: T -> bool): (r: Option<nat>)
    ensures r.Some? ==> r.value < |s| && p(s[r.value]) && forall j :: 0 <= j < r.value ==> !p(s[j])
    ensures r.None? ==> forall j :: 0 <= j < |s| ==> !p(s[j])
  {
    if |s| == 0 then None
    else if p(s[0]) then Some(0)
    else match FirstIndex(s[1..], p)
      case None => None
      case Some(i) => Some(i + 1)
  }

  /** The first index is the only index that satisfies `p` with no earlier one
      satisfying it. */
  lemma FirstIndexUnique<T>(s: seq<T>, p: T -> bool, k: nat)
    requires k < |s| && p(s[k]) && forall j :: 0 <= j < k ==> !p(s[j])
    ensures FirstIndex(s, p) == Some(k)
  {
  }

  /** Sorted by descending key. */
  ghost predicate SortedDesc<T>(s: seq<T>, key: T -> int) {
    forall i, j :: 0 <= i < j < |s| ==> key(s[i]) >= key(s[j])
  }

  /** Inserts `x` after every element whose key is strictly larger, so that it
      comes before the elements with an equal key. */
  function InsertDesc<T>(x: T, s: seq<T>, key: T -> int): (r: seq<T>)
    ensures |r| == |s| + 1
    ensures multiset(r) == multiset(s) + multiset{x}
  {
    if |s| == 0 then [x]
    else if key(s[0]) > key(x) then
      assert s == [s[0]] + s[1..];
      [s[0]] + InsertDesc(x, s[1..], key)
    else [x] + s
  }

  /** Inserting below a bound keeps every key below it. */
  lemma {:induction false} InsertDescBelow<T>(x: T, s: seq<T>, key: T -> int, b: int)
    requires key(x) <= b
    requires forall i :: 0 <= i < |s| ==> key(s[i]) <= b
    ensures forall i :: 0 <= i < |InsertDesc(x, s, key)| ==> key(InsertDesc(x, s, key)[i]) <= b
  {
    if |s| > 0 && key(s[0]) > key(x) {
      var rest := InsertDesc(x, s[1..], key);
      InsertDescBelow(x, s[1..], key, b);
      var r := [s[0]] + rest;
      assert InsertDesc(x, s, key) == r;
      forall i | 0 <= i < |r| ensures key(r[i]) <= b {
        if i > 0 { assert r[i] == rest[i - 1]; }
      }
    } else {
      var r := [x] + s;
      assert InsertDesc(x, s, key) == r;
      forall i | 0 <= i < |r| ensures key(r[i]) <= b {
        if i > 0 { assert r[i] == s[i - 1]; }
      }
    }
  }

  lemma {:induction false} InsertDescSorted<T>(x: T, s: seq<T>, key: T -> int)
    requires SortedDesc(s, key)
    ensures SortedDesc(InsertDesc(x, s, key), key)
  {
    if |s| > 0 && key(s[0]) > key(x) {
      var tail := s[1..];
      var rest := InsertDesc(x, tail, key);
      assert SortedDesc(tail, key) by {
        forall i, j | 0 <= i < j < |tail| ensures key(tail[i]) >= key(tail[j]) {
          assert tail[i] == s[i + 1] && tail[j] == s[j + 1];
        }
      }
      InsertDescSorted(x, tail, key);
      forall i | 0 <= i < |tail| ensures key(tail[i]) <= key(s[0]) {
        assert tail[i] == s[i + 1];
      }
      InsertDescBelow(x, tail, key, key(s[0]));
      var r := [s[0]] + rest;
      assert InsertDesc(x, s, key) == r;
      forall i, j | 0 <= i < j < |r| ensures key(r[i]) >= key(r[j]) {
        assert r[j] == rest[j - 1];
        if i > 0 { assert r[i] == rest[i - 1]; }
      }
    } else if |s| > 0 {
      var r := [x] + s;
      assert InsertDesc(x, s, key) == r;
      forall i, j | 0 <= i < j < |r| ensures key(r[i]) >= key(r[j]) {
        assert r[j] == s[j - 1];
        if i > 0 { assert r[i] == s[i - 1]; }
        else { assert key(s[0]) >= key(s[j - 1]); }
      }
    }
  }

  /** `sorted(s, key=lambda x: -key(x))`: Python's sort is stable, so this is
      descending by `key` with ties in input order. */
  function SortDesc<T>(s: seq<T>, key: T -> int): (r: seq<T>)
    ensures |r| == |s|
    ensures multiset(r) == multiset(s)
    ensures SortedDesc(r, key)
  {
    if |s| == 0 then []
    else
      assert s == [s[0]] + s[1..];
      var t := SortDesc(s[1..], key);
      InsertDescSorted(s[0], t, key);
      InsertDesc(s[0], t, key)
  }

  /** The condition "has key `v`". */
  function HasKey<T>(key: T -> int, v: int): T -> bool {
    x => key(x) == v
  }

  lemma {:induction false} InsertDescFilter<T>(x: T, s: seq<T>, key: T -> int, v: int)
    ensures Filter(InsertDesc(x, s, key), HasKey(key, v))
         == (if key(x) == v then [x] else []) + Filter(s, HasKey(key, v))
  {
    var p := HasKey(key, v);
    var fx: seq<T> := if key(x) == v then [x] else [];
    FilterSingle(x, p);
    if |s| > 0 && key(s[0]) > key(x) {
      var rest := InsertDesc(x, s[1..], key);
      var f0 := Filter([s[0]], p);
      assert key(x) == v ==> f0 == [] by {
        FilterSingle(s[0], p);
      }
      calc {
        Filter(InsertDesc(x, s, key), p);
        { assert InsertDesc(x, s, key) == [s[0]] + rest; }
        Filter([s[0]] + rest, p);
        { FilterConcat([s[0]], rest, p); }
        f0 + Filter(rest, p);
        { InsertDescFilter(x, s[1..], key, v); }
        f0 + (fx + Filter(s[1..], p));
        { if key(x) == v { assert f0 == []; } else { assert fx == []; } }
        fx + (f0 + Filter(s[1..], p));
        { FilterSingle(s[0], p); assert Filter(s, p) == f0 + Filter(s[1..], p); }
        fx + Filter(s, p);
      }
    } else {
      assert InsertDesc(x, s, key) == [x] + s;
      FilterConcat([x], s, p);
    }
  }

  /** Stability: for every key value, the elements with that key appear in the
      sorted list in the same order as in the input. */
  lemma {:induction false} SortDescStable<T>(s: seq<T>, key: T -> int, v: int)
    ensures Filter(SortDesc(s, key), HasKey(key, v)) == Filter(s, HasKey(key, v))
  {
    var p := HasKey(key, v);
    if |s| > 0 {
      SortDescStable(s[1..], key, v);
      InsertDescFilter(s[0], SortDesc(s[1..], key), key, v);
      assert s == [s[0]] + s[1..];
      FilterConcat([s[0]], s[1..], p);
      FilterSingle(s[0], p);
    }
  }

  /** `top` is `k` elements of `s` (all of them when there are fewer) and no
      element of `s` left out has a larger key than one in `top`. */
  ghost predicate IsTopK<T>(s: seq<T>, key: T -> int, k: nat, top: seq<T>) {
    && |top| == (if k <= |s| then k else |s|)
    && multiset(top) <= multiset(s)
    && forall x, y :: x in top && y in multiset(s) - multiset(top) ==> key(x) >= key(y)
  }

  /** In a list sorted by descending key, every element before position `n`
      has a key at least that of every element from `n` on. */
  lemma SortedSplit<T>(r: seq<T>, key: T -> int, n: nat)
    requires SortedDesc(r, key) && n <= |r|
    ensures forall x, y :: x in r[..n] && y in r[n..] ==> key(x) >= key(y)
  {
    forall x, y | x in r[..n] && y in r[n..] ensures key(x) >= key(y) {
      var i :| 0 <= i < n && r[..n][i] == x;
      var j :| 0 <= j < |r| - n && r[n..][j] == y;
      assert r[i] == x && r[n + j] == y;
    }
  }

  /** `sorted(s, key=lambda x: -key(x))[:k]` picks the `k` largest. */
  lemma TopK<T>(s: seq<T>, key: T -> int, k: nat)
    ensures IsTopK(s, key, k, Take(SortDesc(s, key), k))
  {
    var r := SortDesc(s, key);
    var top := Take(r, k);
    var n := |top|;
    assert top == r[..n];
    assert r == r[..n] + r[n..];
    assert multiset(s) - multiset(top) == multiset(r[n..]);
    SortedSplit(r, key, n);
  }

  /** Every element kept, in order, when all satisfy the condition. */
  lemma {:induction false} FilterAll<T>(s: seq<T>, p: T -> bool)
    requires forall i :: 0 <= i < |s| ==> p(s[i])
    ensures Filter(s, p) == s
  {
    if |s| > 0 {
      FilterAll(s[1..], p);
    }
  }

  /** Nothing of a flattened list survives a filter none of its pieces'
      elements satisfies. */
  lemma {:induction false} FilterFlattenNone<T>(ss: seq<seq<T>>, p: T -> bool)
    requires forall i, j :: 0 <= i < |ss| && 0 <= j < |ss[i]| ==> !p(ss[i][j])
    ensures Filter(Flatten(ss), p) == []
  {
    if |ss| > 0 {
      FilterFlattenNone(ss[..|ss| - 1], p);
      FilterConcat(Flatten(ss[..|ss| - 1]), ss[|ss| - 1], p);
      FilterNone(ss[|ss| - 1], p);
    }
  }

  /** The filter of six concatenated pieces, from the filters of the pieces,
      the first of which keeps nothing. */
  lemma FilterPieces<T>(a: seq<T>, b: seq<T>, c: seq<T>, d: seq<T>, e: seq<T>, f: seq<T>, p: T -> bool,
                        fb: seq<T>, fc: seq<T>, fd: seq<T>, fe: seq<T>, ff: seq<T>)
    requires Filter(a, p) == [] && Filter(b, p) == fb && Filter(c, p) == fc
    requires Filter(d, p) == fd && Filter(e, p) == fe && Filter(f, p) == ff
    ensures Filter(a + b + c + d + e + f, p) == fb + fc + fd + fe + ff
  {
    FilterConcat(a, b, p);
    assert Filter(a + b, p) == fb;
    FilterConcat(a + b, c, p);
    assert Filter(a + b + c, p) == fb + fc;
    FilterConcat(a + b + c, d, p);
    assert Filter(a + b + c + d, p) == fb + fc + fd;
    FilterConcat(a + b + c + d, e, p);
    assert Filter(a + b + c + d + e, p) == fb + fc + fd + fe;
    FilterConcat(a + b + c + d + e, f, p);
  }
}
