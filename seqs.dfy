/** Generic list operations: `Array.prototype.filter`, `findFirst`-style
    lookups and sums. */
module Seqs {
  import opened Wrappers

  /** `s.filter(p)`: the elements satisfying `p`, in their original order. */
  function Filter<T(!new)>(s: seq<T>, p: T -> bool): (r: seq<T>)
    ensures |r| <= |s|
    ensures forall x :: x in r <==> x in s && p(x)
    ensures |r| == 0 <==> forall x :: x in s ==> !p(x)
  {
    if s == [] then []
    else (if p(s[0]) then [s[0]] else []) + Filter(s[1..], p)
  }

  lemma {:induction false} FilterAll<T(!new)>(s: seq<T>, p: T -> bool)
    requires forall x :: x in s ==> p(x)
    ensures Filter(s, p) == s
  {
    if s != [] {
      FilterAll(s[1..], p);
      assert s == [s[0]] + s[1..];
    }
  }

  lemma FilterSingle<T(!new)>(x: T, p: T -> bool)
    ensures Filter([x], p) == if p(x) then [x] else []
  {
    assert [x][1..] == [];
  }

  lemma FilterCons<T(!new)>(x: T, s: seq<T>, p: T -> bool)
    ensures Filter([x] + s, p) == (if p(x) then [x] else []) + Filter(s, p)
  {
    var t := [x] + s;
    assert t[0] == x && t[1..] == s;
  }

  /** A prefix whose every element passes is kept whole. */
  lemma {:induction false} FilterKeepsPrefix<T(!new)>(s: seq<T>, t: seq<T>, p: T -> bool)
    requires forall x :: x in s ==> p(x)
    ensures Filter(s + t, p) == s + Filter(t, p)
  {
    if s == [] {
      assert s + t == t;
    } else {
      var x, rest := s[0], s[1..];
      assert p(x);
      calc {
        Filter(s + t, p);
      == { assert s + t == [x] + (rest + t); }
        Filter([x] + (rest + t), p);
      == { FilterCons(x, rest + t, p); }
        [x] + Filter(rest + t, p);
      == { FilterKeepsPrefix(rest, t, p); }
        [x] + (rest + Filter(t, p));
      == { assert s == [x] + rest; }
        s + Filter(t, p);
      }
    }
  }

  /** The index of the first element satisfying `p`, as a store's
      `findFirst` returns the first matching row. */
  function FirstIndex<T>(s: seq<T>, p: T -> bool): (r: Option<nat>)
    ensures r.Some? ==> r.value < |s| && p(s[r.value])
    ensures r.Some? ==> forall k :: 0 <= k < r.value ==> !p(s[k])
    ensures r.None? <==> forall k :: 0 <= k < |s| ==> !p(s[k])
  {
    if s == [] then None
    else if p(s[0]) then Some(0)
    else match FirstIndex(s[1..], p)
      case None => None
      case Some(i) => Some(i + 1)
  }
}
