/**
 View sequences (pkg/server/viewseq.go): the loops of the source against functions, and what
 those functions mean on duplicate-free chains.
 */
module ViewSeqs {
  import opened Views

  predicate ChainSeq(s: ViewSeq) {
    forall v, v' :: v in s && v' in s ==> Comparable(v, v')
  }

  /** A duplicate-free chain under inclusion. */
  predicate Proper(s: ViewSeq) {
    Distinct(s) && ChainSeq(s)
  }

  predicate SeqEqual(a: ViewSeq, b: ViewSeq) {
    |a| == |b| && forall v | v in a :: v in b
  }

  /** The first view of s not contained in a later better one, starting from `best`. */
  function MostFrom(s: ViewSeq, best: View): View {
    if s == [] then best else MostFrom(s[1..], if best < s[0] then s[0] else best)
  }

  function MostUpdated(s: ViewSeq): View {
    if s == [] then {} else MostFrom(s, s[0])
  }

  function LeastFrom(s: ViewSeq, best: View): View {
    if s == [] then best else LeastFrom(s[1..], if best <= s[0] then best else s[0])
  }

  function LeastUpdated(s: ViewSeq): View
    requires s != []
  {
    LeastFrom(s, s[0])
  }

  /** The views of vs that s does not have, in order; repeats within vs stay. */
  function Missing(s: ViewSeq, vs: ViewSeq): (r: ViewSeq)
    ensures forall v :: v in r <==> v in vs && v !in s
  {
    if vs == [] then []
    else
      assert vs == [vs[0]] + vs[1..];
      (if vs[0] in s then [] else [vs[0]]) + Missing(s, vs[1..])
  }

  function Append(s: ViewSeq, vs: ViewSeq): (r: ViewSeq)
    ensures forall v :: v in r <==> v in s || v in vs
  {
    s + Missing(s, vs)
  }

  // ----- picking views in order -----

  ghost predicate Points(s: ViewSeq, r: ViewSeq, keep: View -> bool, idx: seq<nat>) {
    |idx| == |r| && forall j | 0 <= j < |idx| :: idx[j] < |s| && r[j] == s[idx[j]] && keep(r[j])
  }

  ghost predicate Rising(idx: seq<nat>) {
    forall j, k :: 0 <= j < k < |idx| ==> idx[j] < idx[k]
  }

  ghost predicate Covers(s: ViewSeq, keep: View -> bool, idx: seq<nat>) {
    forall a | 0 <= a < |s| && keep(s[a]) :: a in idx
  }

  /** r holds the views of s at the positions idx, in order, and these are all that satisfy `keep`. */
  ghost predicate PicksAt(s: ViewSeq, r: ViewSeq, keep: View -> bool, idx: seq<nat>) {
    Points(s, r, keep, idx) && Rising(idx) && Covers(s, keep, idx)
  }

  function Shifted(idx: seq<nat>): (r: seq<nat>)
    ensures |r| == |idx| && forall j | 0 <= j < |r| :: r[j] == idx[j] + 1
  {
    seq(|idx|, j requires 0 <= j < |idx| => idx[j] + 1)
  }

  lemma PointsShifted(s: ViewSeq, r: ViewSeq, keep: View -> bool, idx: seq<nat>)
    requires s != [] && Points(s[1..], r, keep, idx) && Rising(idx)
    ensures Points(s, r, keep, Shifted(idx)) && Rising(Shifted(idx))
  {
  }

  lemma PointsFirst(s: ViewSeq, r: ViewSeq, keep: View -> bool, idx: seq<nat>)
    requires s != [] && keep(s[0]) && Points(s, r, keep, Shifted(idx)) && Rising(Shifted(idx))
    ensures Points(s, [s[0]] + r, keep, [0] + Shifted(idx)) && Rising([0] + Shifted(idx))
  {
  }

  lemma CoversShifted(s: ViewSeq, keep: View -> bool, idx: seq<nat>, a: nat)
    requires s != [] && Covers(s[1..], keep, idx) && 0 < a < |s| && keep(s[a])
    ensures a in Shifted(idx)
  {
    var b := a - 1;
    assert s[1..][b] == s[a];
    var j :| 0 <= j < |idx| && idx[j] == b;
    assert Shifted(idx)[j] == a;
  }

  lemma SkipFirst(s: ViewSeq, r: ViewSeq, keep: View -> bool, idx: seq<nat>)
    requires s != [] && !keep(s[0]) && PicksAt(s[1..], r, keep, idx)
    ensures PicksAt(s, r, keep, Shifted(idx))
  {
    PointsShifted(s, r, keep, idx);
    forall a | 0 <= a < |s| && keep(s[a]) ensures a in Shifted(idx) { CoversShifted(s, keep, idx, a); }
  }

  lemma PickFirst(s: ViewSeq, r: ViewSeq, keep: View -> bool, idx: seq<nat>)
    requires s != [] && keep(s[0]) && PicksAt(s[1..], r, keep, idx)
    ensures PicksAt(s, [s[0]] + r, keep, [0] + Shifted(idx))
  {
    PointsShifted(s, r, keep, idx);
    PointsFirst(s, r, keep, idx);
    forall a | 0 <= a < |s| && keep(s[a]) ensures a in [0] + Shifted(idx) {
      if a > 0 { CoversShifted(s, keep, idx, a); }
    }
  }

  lemma {:induction false} MissingPicks(s: ViewSeq, vs: ViewSeq, keep: View -> bool) returns (idx: seq<nat>)
    requires forall x :: keep(x) <==> x !in s
    ensures PicksAt(vs, Missing(s, vs), keep, idx)
  {
    idx := [];
    if vs != [] {
      var rest := MissingPicks(s, vs[1..], keep);
      if vs[0] in s {
        idx := Shifted(rest);
        SkipFirst(vs, Missing(s, vs[1..]), keep, rest);
        assert [] + Missing(s, vs[1..]) == Missing(s, vs[1..]);
      } else {
        idx := [0] + Shifted(rest);
        PickFirst(vs, Missing(s, vs[1..]), keep, rest);
      }
    }
  }

  /** Appending keeps s in front and adds exactly the views that s lacks, in their order. */
  lemma AppendKeepsOrder(s: ViewSeq, vs: ViewSeq) returns (idx: seq<nat>)
    ensures |s| <= |Append(s, vs)| && Append(s, vs)[..|s|] == s
    ensures PicksAt(vs, Append(s, vs)[|s|..], x => x !in s, idx)
  {
    idx := MissingPicks(s, vs, x => x !in s);
    assert Append(s, vs)[|s|..] == Missing(s, vs);
  }

  // ----- the loops of the source -----

  method HasView(s: ViewSeq, v: View) returns (has: bool)
    ensures has <==> v in s
  {
    for i := 0 to |s|
      invariant v !in s[..i]
    {
      var same := Equal(s[i], v);
      if same { return true; }
      assert s[..i + 1] == s[..i] + [s[i]];
    }
    assert s[..|s|] == s;
    return false;
  }

  method SequencesEqual(a: ViewSeq, b: ViewSeq) returns (same: bool)
    ensures same <==> SeqEqual(a, b)
  {
    if |b| != |a| { return false; }
    for i := 0 to |a|
      invariant forall j | 0 <= j < i :: a[j] in b
    {
      var has := HasView(b, a[i]);
      if !has { return false; }
    }
    return true;
  }

  method GetLeastUpdatedView(s: ViewSeq) returns (v: View)
    requires s != []
    ensures v == LeastUpdated(s)
  {
    var least := 0;
    for i := 0 to |s|
      invariant 0 <= least < |s|
      invariant LeastUpdated(s) == LeastFrom(s[i..], s[least])
    {
      var less := LessUpdatedThan(s[i], s[least]);
      if less { least := i; }
    }
    return s[least];
  }

  method GetMostUpdatedView(s: ViewSeq) returns (v: View)
    ensures v == MostUpdated(s)
  {
    if |s| == 0 { return {}; }
    var most := 0;
    for i := 0 to |s|
      invariant 0 <= most < |s|
      invariant MostUpdated(s) == MostFrom(s[i..], s[most])
    {
      var more := MoreUpdatedThan(s[i], s[most]);
      if more { most := i; }
    }
    return s[most];
  }

  method HasViewMoreUpdatedThan(s: ViewSeq, v: View) returns (has: bool)
    ensures has <==> exists x :: x in s && v < x
  {
    for i := 0 to |s|
      invariant forall j | 0 <= j < i :: !(v < s[j])
    {
      var more := MoreUpdatedThan(s[i], v);
      if more { return true; }
    }
    return false;
  }

  method AppendViews(s: ViewSeq, vs: ViewSeq) returns (r: ViewSeq)
    ensures r == Append(s, vs)
  {
    r := s;
    for i := 0 to |vs|
      invariant r + Missing(s, vs[i..]) == s + Missing(s, vs)
    {
      var has := HasView(s, vs[i]);
      AppendStep(s, vs, i, r);
      if !has { r := r + [vs[i]]; }
    }
    assert vs[|vs|..] == [];
  }

  lemma {:induction false} MissingAt(s: ViewSeq, vs: ViewSeq, i: nat)
    requires i < |vs|
    ensures Missing(s, vs[i..]) == (if vs[i] in s then [] else [vs[i]]) + Missing(s, vs[i + 1..])
  {
    assert vs[i..][0] == vs[i] && vs[i..][1..] == vs[i + 1..];
  }

  lemma {:induction false} AppendStep(s: ViewSeq, vs: ViewSeq, i: nat, r: ViewSeq)
    requires i < |vs|
    ensures r + Missing(s, vs[i..]) == (if vs[i] in s then r else r + [vs[i]]) + Missing(s, vs[i + 1..])
  {
    MissingAt(s, vs, i);
    if vs[i] in s {
      assert [] + Missing(s, vs[i + 1..]) == Missing(s, vs[i + 1..]);
    } else {
      assert r + ([vs[i]] + Missing(s, vs[i + 1..])) == (r + [vs[i]]) + Missing(s, vs[i + 1..]);
    }
  }

  // ----- what they mean on duplicate-free chains -----

  lemma {:induction false} MostFromBounds(s: ViewSeq, best: View)
    requires forall v, v' :: (v in s || v == best) && (v' in s || v' == best) ==> Comparable(v, v')
    ensures MostFrom(s, best) == best || MostFrom(s, best) in s
    ensures best <= MostFrom(s, best) && forall v | v in s :: v <= MostFrom(s, best)
  {
    if s != [] {
      assert s == [s[0]] + s[1..];
      assert s[0] in s && Comparable(best, s[0]);
      MostFromBounds(s[1..], if best < s[0] then s[0] else best);
    }
  }

  lemma {:induction false} MostFromIsMaximal(s: ViewSeq, best: View)
    ensures MostFrom(s, best) == best || MostFrom(s, best) in s
    ensures best <= MostFrom(s, best) && forall v | v in s :: !(MostFrom(s, best) < v)
  {
    if s != [] {
      assert s == [s[0]] + s[1..];
      MostFromIsMaximal(s[1..], if best < s[0] then s[0] else best);
    }
  }

  /** In any sequence it is an element that contains the first, and that no element contains strictly. */
  lemma MostUpdatedIsMaximal(s: ViewSeq)
    requires s != []
    ensures MostUpdated(s) in s && s[0] <= MostUpdated(s) && forall v | v in s :: !(MostUpdated(s) < v)
  {
    MostFromIsMaximal(s, s[0]);
  }

  /** In a chain the most updated view is an element that contains all others. */
  lemma MostUpdatedIsMaximum(s: ViewSeq)
    requires ChainSeq(s)
    ensures s != [] ==> MostUpdated(s) in s
    ensures forall v | v in s :: v <= MostUpdated(s)
  {
    if s != [] { MostFromBounds(s, s[0]); }
  }

  lemma {:induction false} LeastFromBounds(s: ViewSeq, best: View)
    requires forall v, v' :: (v in s || v == best) && (v' in s || v' == best) ==> Comparable(v, v')
    ensures LeastFrom(s, best) == best || LeastFrom(s, best) in s
    ensures LeastFrom(s, best) <= best && forall v | v in s :: LeastFrom(s, best) <= v
  {
    if s != [] {
      assert s == [s[0]] + s[1..];
      assert s[0] in s && Comparable(best, s[0]);
      LeastFromBounds(s[1..], if best <= s[0] then best else s[0]);
    }
  }

  lemma {:induction false} LeastFromIsLast(s: ViewSeq, best: View)
    ensures (LeastFrom(s, best) == best && forall v | v in s :: best <= v)
            || exists i :: 0 <= i < |s| && LeastFrom(s, best) == s[i] && forall j | i < j < |s| :: s[i] <= s[j]
  {
    if s != [] {
      assert s == [s[0]] + s[1..];
      var best' := if best <= s[0] then best else s[0];
      LeastFromIsLast(s[1..], best');
      if i :| 0 <= i < |s[1..]| && LeastFrom(s[1..], best') == s[1..][i]
              && forall j | i < j < |s[1..]| :: s[1..][i] <= s[1..][j] {
        assert s[i + 1] == s[1..][i];
        forall j | i + 1 < j < |s| ensures s[i + 1] <= s[j] { assert s[j] == s[1..][j - 1]; }
      }
    }
  }

  /** In any sequence the least updated view is an element contained in all that follow it. */
  lemma LeastUpdatedIsContainedInRest(s: ViewSeq) returns (i: nat)
    requires s != []
    ensures i < |s| && LeastUpdated(s) == s[i] && forall j | i < j < |s| :: s[i] <= s[j]
  {
    LeastFromIsLast(s, s[0]);
    if LeastUpdated(s) == s[0] && forall v | v in s :: s[0] <= v {
      i := 0;
    } else {
      i :| i < |s| && LeastFrom(s, s[0]) == s[i] && forall j | i < j < |s| :: s[i] <= s[j];
    }
  }

  /** In a chain the least updated view is an element contained in all others. */
  lemma LeastUpdatedIsMinimum(s: ViewSeq)
    requires ChainSeq(s) && s != []
    ensures LeastUpdated(s) in s && forall v | v in s :: LeastUpdated(s) <= v
  {
    LeastFromBounds(s, s[0]);
  }

  /** The most updated view is determined by, and grows with, the set of views. */
  lemma MostUpdatedMonotone(a: ViewSeq, b: ViewSeq)
    requires ChainSeq(a) && ChainSeq(b) && forall v | v in a :: v in b
    ensures MostUpdated(a) <= MostUpdated(b)
  {
    MostUpdatedIsMaximum(a);
    MostUpdatedIsMaximum(b);
  }

  /** On duplicate-free sequences Equal is equality of the sets of views, hence an equivalence. */
  lemma EqualIsSameViews(a: ViewSeq, b: ViewSeq)
    requires Distinct(a) && Distinct(b)
    ensures SeqEqual(a, b) <==> AsSet(a) == AsSet(b)
  {
    DistinctCardinality(a);
    DistinctCardinality(b);
    if SeqEqual(a, b) {
      assert AsSet(a) <= AsSet(b);
      SubsetCardinality(AsSet(a), AsSet(b));
    }
    if AsSet(a) == AsSet(b) {
      forall v | v in a ensures v in b { assert v in AsSet(a); }
    }
  }

  /** With a duplicate it is not even symmetric. */
  lemma EqualWithDuplicates(v: View, v': View)
    requires v != v'
    ensures SeqEqual([v, v], [v, v']) && !SeqEqual([v, v'], [v, v])
  {
    assert v' in [v, v'];
  }

  lemma {:induction false} MissingDistinct(s: ViewSeq, vs: ViewSeq)
    requires Distinct(vs)
    ensures Distinct(Missing(s, vs))
  {
    if vs != [] {
      MissingDistinct(s, vs[1..]);
      assert vs[0] !in vs[1..];
      assert vs[0] !in Missing(s, vs[1..]);
    }
  }

  lemma AppendDistinct(s: ViewSeq, vs: ViewSeq)
    requires Distinct(s) && Distinct(vs)
    ensures Distinct(Append(s, vs))
  {
    MissingDistinct(s, vs);
    var m := Missing(s, vs);
    forall i, j | 0 <= i < j < |s + m|
      ensures (s + m)[i] != (s + m)[j]
    {
      if i < |s| <= j { assert m[j - |s|] in m && s[i] in s; }
    }
  }

  lemma AppendNew(s: ViewSeq, v: View)
    requires v !in s
    ensures Append(s, [v]) == s + [v]
  {
    var one := [v];
    assert one[1..] == [];
    assert Missing(s, one) == [v] + Missing(s, one[1..]);
  }

  lemma MostOfOne(v: View)
    ensures MostUpdated([v]) == v
  {
    var one := [v];
    assert one[1..] == [];
    assert MostFrom(one, v) == MostFrom(one[1..], v);
  }
}
