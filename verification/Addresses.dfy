/**
 The order of process addresses (Go string comparison) and the position of a process among the
 members of a view (GetProcessPosition in pkg/view/view.go).
 */
module Addresses {
  import opened Views

  predicate StringLess(a: string, b: string) {
    if b == [] then false
    else if a == [] then true
    else a[0] < b[0] || (a[0] == b[0] && StringLess(a[1..], b[1..]))
  }

  lemma {:induction false} StringLessTotal(a: string, b: string)
    ensures !(StringLess(a, b) && StringLess(b, a)) && !StringLess(a, a)
    ensures a != b ==> StringLess(a, b) || StringLess(b, a)
  {
    if a != [] && b != [] {
      StringLessTotal(a[1..], b[1..]);
      if a[0] == b[0] { assert a == [a[0]] + a[1..] && b == [b[0]] + b[1..]; }
    }
    if a != [] { StringLessTotal(a[1..], a[1..]); }
  }

  lemma {:induction false} StringLessTransitive(a: string, b: string, c: string)
    requires StringLess(a, b) && StringLess(b, c)
    ensures StringLess(a, c)
  {
    if a != [] && a[0] == b[0] && b[0] == c[0] { StringLessTransitive(a[1..], b[1..], c[1..]); }
  }

  /** The lexicographic order: a is a proper prefix of b, or has the smaller character where they
      first differ. */
  ghost predicate DiffersAt(a: string, b: string, k: nat) {
    k <= |a| && k < |b| && a[..k] == b[..k] && (k == |a| || a[k] < b[k])
  }

  lemma {:induction false} StringLessIsLexicographic(a: string, b: string)
    ensures StringLess(a, b) <==> exists k: nat :: DiffersAt(a, b, k)
  {
    if a != [] && b != [] && a[0] == b[0] {
      StringLessIsLexicographic(a[1..], b[1..]);
      if k: nat :| DiffersAt(a[1..], b[1..], k) {
        assert a[..k + 1] == [a[0]] + a[1..][..k] && b[..k + 1] == [b[0]] + b[1..][..k];
        assert DiffersAt(a, b, k + 1);
      }
      if k: nat :| DiffersAt(a, b, k) {
        assert k > 0;
        assert a[1..][..k - 1] == a[..k][1..] && b[1..][..k - 1] == b[..k][1..];
        assert DiffersAt(a[1..], b[1..], k - 1);
      }
    } else if b != [] && (a == [] || a[0] < b[0]) {
      assert DiffersAt(a, b, 0);
    } else {
      forall k: nat ensures !DiffersAt(a, b, k) {
        if a != [] && b != [] && k > 0 && k <= |a| && k < |b| { assert a[..k][0] == a[0] && b[..k][0] == b[0]; }
      }
    }
  }

  predicate Before(p: Process, q: Process) {
    StringLess(p.addr, q.addr)
  }

  function Lower(m: set<Process>, p: Process): set<Process> {
    set q | q in m && Before(q, p)
  }

  function Position(m: set<Process>, p: Process): int {
    if p in m then |Lower(m, p)| else -1
  }

  method GetProcessPosition(m: set<Process>, p: Process) returns (position: int)
    ensures position == Position(m, p)
  {
    if p !in m { return -1; }
    position := 0;
    var rest := m;
    while rest != {}
      invariant rest <= m && position == |Lower(m - rest, p)|
      decreases |rest|
    {
      var q :| q in rest;
      assert Lower(m - (rest - {q}), p) == if Before(q, p) then Lower(m - rest, p) + {q} else Lower(m - rest, p);
      if Before(q, p) {
        position := position + 1;
      }
      rest := rest - {q};
    }
    assert m - rest == m;
  }

  lemma PositionIncreases(m: set<Process>, p: Process, q: Process)
    requires p in m && q in m && Before(p, q)
    ensures 0 <= Position(m, p) < Position(m, q) < |m|
  {
    forall x | x in Lower(m, p) ensures x in Lower(m, q) { StringLessTransitive(x.addr, p.addr, q.addr); }
    StringLessTotal(p.addr, p.addr);
    StringLessTotal(q.addr, q.addr);
    assert p in Lower(m, q) && p !in Lower(m, p);
    SubsetCardinality(Lower(m, p), Lower(m, q) - {p});
    assert q !in Lower(m, q);
    SubsetCardinality(Lower(m, q), m - {q});
  }

  lemma PositionInRange(m: set<Process>, p: Process)
    requires p in m
    ensures 0 <= Position(m, p) < |m|
  {
    StringLessTotal(p.addr, p.addr);
    SubsetCardinality(Lower(m, p), m - {p});
  }

  /** Different members have different positions. */
  lemma PositionInjective(m: set<Process>, p: Process, q: Process)
    requires p in m && q in m && p != q
    ensures Position(m, p) != Position(m, q)
  {
    StringLessTotal(p.addr, q.addr);
    if Before(p, q) { PositionIncreases(m, p, q); } else { PositionIncreases(m, q, p); }
  }

  /** The member with the lexicographically smaller address has the lower position. */
  lemma PositionsFollowAddresses(m: set<Process>, p: Process, q: Process)
    requires p in m && q in m
    ensures Position(m, p) < Position(m, q) <==> exists k: nat :: DiffersAt(p.addr, q.addr, k)
  {
    StringLessIsLexicographic(p.addr, q.addr);
    StringLessTotal(p.addr, q.addr);
    if Before(p, q) { PositionIncreases(m, p, q); }
    if Before(q, p) { PositionIncreases(m, q, p); }
  }

  function Positions(m: set<Process>, part: set<Process>): set<int> {
    set p | p in part :: Position(m, p)
  }

  lemma {:induction false} PositionsCardinality(m: set<Process>, part: set<Process>)
    requires part <= m
    ensures |Positions(m, part)| == |part|
    decreases |part|
  {
    if part != {} {
      var p :| p in part;
      var rest := part - {p};
      PositionsCardinality(m, rest);
      assert Positions(m, part) == Positions(m, rest) + {Position(m, p)};
      if Position(m, p) in Positions(m, rest) {
        var q :| q in rest && Position(m, q) == Position(m, p);
        PositionInjective(m, p, q);
        assert false;
      }
    } else {
      assert Positions(m, part) == {};
    }
  }

  function Below(n: nat): (r: set<int>)
    ensures forall k :: k in r <==> 0 <= k < n
    ensures |r| == n
  {
    if n == 0 then {} else Below(n - 1) + {n - 1}
  }

  /** Positions are a bijection from the members onto 0..|m| - 1. */
  lemma {:induction false} PositionsAreABijection(m: set<Process>)
    ensures Positions(m, m) == Below(|m|)
    ensures forall p, q :: p in m && q in m && p != q ==> Position(m, p) != Position(m, q)
  {
    forall p, q | p in m && q in m && p != q ensures Position(m, p) != Position(m, q) { PositionInjective(m, p, q); }
    forall p | p in m ensures Position(m, p) in Below(|m|) { PositionInRange(m, p); }
    PositionsCardinality(m, m);
    SubsetCardinality(Positions(m, m), Below(|m|));
  }
}
