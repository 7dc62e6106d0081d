/** The two methods of JavaScript's Array.prototype that the store is built
    from: `find` (the first element a callback accepts) and `filter` (the
    elements a callback accepts, in their original order). Arrays are values
    here; a callback is a total Dafny function. */
module JsArray {

  datatype Option<+T> = None | Some(value: T)

  /** The position of the element `s.find(p)` returns: the first one `p`
      accepts, or None where `find` yields `undefined`. */
  function FindIndex<T>(s: seq<T>, p: T -> bool): (r: Option<nat>)
    ensures r.Some? ==> r.value < |s| && p(s[r.value])
    ensures r.Some? ==> forall j :: 0 <= j < r.value ==> !p(s[j])
    ensures r.None? <==> forall j :: 0 <= j < |s| ==> !p(s[j])
  {
    if s == [] then None
    else if p(s[0]) then Some(0)
    else match FindIndex(s[1..], p)
      case None => None
      case Some(i) => Some(i + 1)
  }

  /** `s.filter(keep)`. */
  function Filter<T>(s: seq<T>, keep: T -> bool): (r: seq<T>)
    ensures |r| <= |s|
    ensures |r| == |s| ==> r == s
  {
    if s == [] then []
    else if keep(s[0]) then [s[0]] + Filter(s[1..], keep)
    else Filter(s[1..], keep)
  }

  /** `filter` keeps exactly the elements the callback accepts. */
  lemma {:induction false} FilterMembers<T(!new)>(s: seq<T>, keep: T -> bool)
    ensures forall x :: x in Filter(s, keep) <==> x in s && keep(x)
  {
    if s != [] {
      FilterMembers(s[1..], keep);
      assert s == [s[0]] + s[1..];
    }
  }

  /** The positions of `s` whose element `keep` accepts, in increasing order. */
  function KeptPositions<T>(s: seq<T>, keep: T -> bool): (ps: seq<nat>)
    ensures forall i :: 0 <= i < |ps| ==> ps[i] < |s|
    ensures forall i, j :: 0 <= i < j < |ps| ==> ps[i] < ps[j]
    ensures forall j :: 0 <= j < |s| ==> (j in ps <==> keep(s[j]))
  {
    if s == [] then []
    else
      var init := s[..|s| - 1];
      KeptPositions(init, keep) + if keep(s[|s| - 1]) then [|s| - 1] else []
  }

  /** Filtering a concatenation filters each part. */
  lemma {:induction false} FilterAppend<T>(a: seq<T>, b: seq<T>, keep: T -> bool)
    ensures Filter(a + b, keep) == Filter(a, keep) + Filter(b, keep)
  {
    if a == [] {
      assert a + b == b;
    } else {
      assert (a + b)[1..] == a[1..] + b;
      FilterAppend(a[1..], b, keep);
    }
  }

  /** `filter` keeps exactly the accepted elements and keeps them in their
      original order: its i-th element is the element at the i-th accepted
      position. */
  lemma {:induction false} FilterSelectsInOrder<T>(s: seq<T>, keep: T -> bool)
    ensures |Filter(s, keep)| == |KeptPositions(s, keep)|
    ensures forall i :: 0 <= i < |Filter(s, keep)| ==>
              Filter(s, keep)[i] == s[KeptPositions(s, keep)[i]]
  {
    if s != [] {
      var init, last := s[..|s| - 1], s[|s| - 1];
      assert s == init + [last];
      FilterAppend(init, [last], keep);
      assert [last][1..] == [];
      FilterSelectsInOrder(init, keep);
    }
  }

  /** When `keep` accepts every element, `filter` returns the array unchanged. */
  lemma {:induction false} FilterAllKept<T>(s: seq<T>, keep: T -> bool)
    requires forall i :: 0 <= i < |s| ==> keep(s[i])
    ensures Filter(s, keep) == s
  {
    if s != [] {
      FilterAllKept(s[1..], keep);
    }
  }

  /** Filtering out the one rejected element between two all-accepted parts
      joins the parts. */
  lemma {:induction false} FilterDropsOne<T>(before: seq<T>, x: T, after: seq<T>, keep: T -> bool)
    requires forall i :: 0 <= i < |before| ==> keep(before[i])
    requires forall i :: 0 <= i < |after| ==> keep(after[i])
    requires !keep(x)
    ensures Filter(before + [x] + after, keep) == before + after
  {
    FilterAllKept(before, keep);
    FilterAllKept(after, keep);
    assert Filter([x], keep) == [] by {
      assert [x][1..] == [];
    }
    calc {
      Filter(before + [x] + after, keep);
      { FilterAppend(before + [x], after, keep); }
      Filter(before + [x], keep) + Filter(after, keep);
      { FilterAppend(before, [x], keep); }
      Filter(before, keep) + Filter([x], keep) + Filter(after, keep);
      before + [] + after;
    }
    assert before + [] + after == before + after;
  }

  /** Filtering twice by the same callback is filtering once. */
  lemma {:induction false} FilterIdempotent<T>(s: seq<T>, keep: T -> bool)
    ensures Filter(Filter(s, keep), keep) == Filter(s, keep)
  {
    if s != [] {
      FilterIdempotent(s[1..], keep);
      if keep(s[0]) {
        assert ([s[0]] + Filter(s[1..], keep))[1..] == Filter(s[1..], keep);
      }
    }
  }

  /** `s.filter(p)[0]` is the element `s.find(p)` returns, and both are
      undefined together. */
  lemma {:induction false} FilterHeadIsFind<T>(s: seq<T>, p: T -> bool)
    ensures FindIndex(s, p).Some? <==> Filter(s, p) != []
    ensures FindIndex(s, p).Some? ==> Filter(s, p)[0] == s[FindIndex(s, p).value]
  {
    if s != [] && !p(s[0]) {
      FilterHeadIsFind(s[1..], p);
    }
  }

  /** Replacing an element by one the callback judges the same way does not
      move the result of `find`. */
  lemma {:induction false} FindIndexAfterUpdate<T>(s: seq<T>, p: T -> bool, i: nat, x: T)
    requires i < |s| && p(x) == p(s[i])
    ensures FindIndex(s[i := x], p) == FindIndex(s, p)
  {
    if i > 0 {
      assert s[i := x][1..] == s[1..][i - 1 := x];
      FindIndexAfterUpdate(s[1..], p, i - 1, x);
    }
  }
}
