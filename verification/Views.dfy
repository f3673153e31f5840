/**
 The view algebra of pkg/view/view.go. A view is a grow-only set of Join and Leave
 updates; its members are the processes that joined and did not leave.
 */
module Views {

  datatype UpdateType = Join | Leave

  datatype Process = Process(addr: string)

  datatype Update = Update(kind: UpdateType, process: Process)

  /** The Entries of a view. */
  type View = set<Update>

  type ViewSeq = seq<View>

  datatype Option<T> = None | Some(value: T)

  /** The processes of a view: those with a Join and no Leave. */
  function Members(v: View): set<Process> {
    set u | u in v && u.kind == Join && Update(Leave, u.process) !in v :: u.process
  }

  lemma MembersMeaning(v: View, p: Process)
    ensures p in Members(v) <==> Update(Join, p) in v && Update(Leave, p) !in v
  {
    if Update(Join, p) in v && Update(Leave, p) !in v {
      assert Update(Join, p).process == p;
    }
  }

  /** A process that is gone from a view is gone from every more updated one. */
  lemma LeaversNeverReturn(v1: View, v2: View, v3: View, p: Process)
    requires v1 <= v2 <= v3
    requires p in Members(v1) && p !in Members(v2)
    ensures p !in Members(v3)
  {
    MembersMeaning(v1, p);
    MembersMeaning(v2, p);
    MembersMeaning(v3, p);
  }

  // ----- sequences as sets -----

  function AsSet<T>(s: seq<T>): set<T> {
    set x | x in s
  }

  predicate Distinct<T(==)>(s: seq<T>) {
    forall i, j :: 0 <= i < j < |s| ==> s[i] != s[j]
  }

  lemma {:induction false} DistinctCardinality<T>(s: seq<T>)
    requires Distinct(s)
    ensures |AsSet(s)| == |s|
  {
    if s != [] {
      var t, x := s[..|s| - 1], s[|s| - 1];
      DistinctCardinality(t);
      assert s == t + [x] && x !in t;
      assert AsSet(s) == AsSet(t) + {x};
    }
  }

  // ----- quorums -----

  function QuorumSize(n: nat): nat {
    (n + 1) / 2 + (n + 1) % 2
  }

  function ToleratedFaults(n: nat): int {
    n - QuorumSize(n)
  }

  /** The two rounded halves are the least strict majority; what is left over may fail. */
  lemma QuorumSizeIsMajority(n: nat)
    ensures 2 * QuorumSize(n) > n
    ensures forall k: nat :: 2 * k > n ==> k >= QuorumSize(n)
    ensures n > 0 ==> 1 <= QuorumSize(n) <= n && ToleratedFaults(n) == (n - 1) / 2
  {
    assert QuorumSize(n) == n / 2 + 1;
  }

  ghost predicate IsQuorum(q: set<Process>, m: set<Process>) {
    q <= m && |q| >= QuorumSize(|m|)
  }

  lemma SubsetCardinality<T>(a: set<T>, b: set<T>)
    requires a <= b
    ensures |a| <= |b|
    ensures |a| == |b| ==> a == b
  {
    assert b == a + (b - a);
    assert |b| == |a| + |b - a|;
  }

  lemma {:induction false} Part<T>(s: set<T>, k: nat) returns (part: set<T>)
    requires k <= |s|
    ensures part <= s && |part| == k
  {
    if k == 0 {
      part := {};
    } else {
      var x :| x in s;
      var rest := Part(s - {x}, k - 1);
      part := rest + {x};
    }
  }

  lemma {:induction false} Enumerate<T>(s: set<T>) returns (order: seq<T>)
    ensures Distinct(order) && AsSet(order) == s && |order| == |s|
    decreases |s|
  {
    order := [];
    if s != {} {
      var x :| x in s;
      var rest := Enumerate(s - {x});
      assert x !in AsSet(rest);
      order := rest + [x];
      assert AsSet(order) == AsSet(rest) + {x};
    }
  }

  /** Any two quorums of one member set share a process: the fact every protocol rests on. */
  lemma QuorumsIntersect(m: set<Process>, q1: set<Process>, q2: set<Process>) returns (p: Process)
    requires IsQuorum(q1, m) && IsQuorum(q2, m)
    ensures p in q1 && p in q2
  {
    QuorumSizeIsMajority(|m|);
    SubsetCardinality(q1 + q2, m);
    assert |q1 + q2| + |q1 * q2| == |q1| + |q2|;
    p :| p in q1 * q2;
  }

  lemma QuorumNonEmpty(m: set<Process>, q: set<Process>) returns (p: Process)
    requires IsQuorum(q, m)
    ensures p in q
  {
    QuorumSizeIsMajority(|m|);
    p :| p in q;
  }

  // ----- comparisons: the loops of the source against their set forms -----

  /** Two views conflict when neither contains the other. */
  predicate Conflict(v: View, v2: View) {
    !(v <= v2) && !(v2 <= v)
  }

  predicate Comparable(v: View, v2: View) {
    v <= v2 || v2 <= v
  }

  /** The scan shared by the three comparisons: is every entry of v2 an entry of v? */
  method ContainsAll(v: View, v2: View) returns (all: bool)
    ensures all <==> v2 <= v
  {
    var rest := v2;
    while rest != {}
      invariant rest <= v2
      invariant v2 - rest <= v
      decreases |rest|
    {
      var u :| u in rest;
      if u !in v {
        return false;
      }
      rest := rest - {u};
    }
    return true;
  }

  method LessUpdatedThan(v: View, v2: View) returns (less: bool)
    ensures less <==> !(v2 <= v)
  {
    if |v2| > |v| {
      if v2 <= v { SubsetCardinality(v2, v); }
      return true;
    }
    var all := ContainsAll(v, v2);
    return !all;
  }

  method MoreUpdatedThan(v: View, v2: View) returns (more: bool)
    ensures more <==> v2 < v
  {
    if |v2| > |v| {
      if v2 <= v { SubsetCardinality(v2, v); }
      return false;
    }
    var all := ContainsAll(v, v2);
    if !all {
      return false;
    }
    SubsetCardinality(v2, v);
    assert v <= v2 ==> v == v2;
    return |v2| != |v|;
  }

  method Equal(v: View, v2: View) returns (same: bool)
    ensures same <==> v == v2
  {
    if |v| != |v2| {
      return false;
    }
    same := ContainsAll(v, v2);
    if same { SubsetCardinality(v2, v); }
  }

  // ----- the member cache -----

  /** A View under construction: its entries and the cache of its members. */
  class ViewBuilder {
    var entries: set<Update>
    var members: set<Process>

    ghost predicate CacheIsExact()
      reads this
    {
      members == Members(entries)
    }

    /** NewWithUpdates: any updates, in any order, with repeats. */
    constructor (updates: seq<Update>)
      ensures entries == AsSet(updates)
      ensures CacheIsExact()
    {
      entries := {};
      members := {};
      new;
      AddUpdates(updates);
    }

    method AddUpdates(updates: seq<Update>)
      requires CacheIsExact()
      modifies this
      ensures entries == old(entries) + AsSet(updates)
      ensures CacheIsExact()
    {
      for i := 0 to |updates|
        invariant entries == old(entries) + AsSet(updates[..i])
        invariant CacheIsExact()
      {
        var u := updates[i];
        ghost var before := entries;
        entries := entries + {u};
        assert updates[..i + 1] == updates[..i] + [u];
        match u.kind
        case Join =>
          if Update(Leave, u.process) !in entries {
            members := members + {u.process};
          }
        case Leave =>
          members := members - {u.process};
        CacheStep(before, u);
      }
      assert updates[..|updates|] == updates;
    }
  }

  /** GetUpdates: the entries in whatever order the map yields them. */
  method GetUpdates(v: View) returns (updates: seq<Update>)
    ensures AsSet(updates) == v && Distinct(updates)
  {
    updates := [];
    var rest := v;
    while rest != {}
      invariant rest <= v && AsSet(updates) == v - rest && Distinct(updates)
      decreases |rest|
    {
      var u :| u in rest;
      assert u !in AsSet(updates) && AsSet(updates + [u]) == AsSet(updates) + {u};
      updates := updates + [u];
      rest := rest - {u};
    }
  }

  /** How one more update changes the members. */
  lemma CacheStep(v: View, u: Update)
    ensures u.kind == Join && Update(Leave, u.process) !in v
            ==> Members(v + {u}) == Members(v) + {u.process}
    ensures u.kind == Join && Update(Leave, u.process) in v ==> Members(v + {u}) == Members(v)
    ensures u.kind == Leave ==> Members(v + {u}) == Members(v) - {u.process}
  {
    forall p
      ensures p in Members(v + {u}) <==> Update(Join, p) in v + {u} && Update(Leave, p) !in v + {u}
      ensures p in Members(v) <==> Update(Join, p) in v && Update(Leave, p) !in v
    {
      MembersMeaning(v + {u}, p);
      MembersMeaning(v, p);
    }
  }
}
