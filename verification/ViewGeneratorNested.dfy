/**
 Which view gets installed. A generated sequence is installed from its least updated view on, so
 one associated view has one install view only if all generated sequences share it. With
 comparable initial views that holds in every run if and only if the view has at most two members:
 from three on, a quorum can generate [v2] and then [v2, v1], for some v1 < v2.
 */
module ViewGeneratorNested {
  import opened Views
  import opened ViewSeqs
  import opened QuorumCounters
  import opened ViewGenerator
  import opened ViewGeneratorChains
  import opened ViewGeneratorConvergence
  import opened ViewGeneratorRepeats
  import opened ViewGeneratorDivergence
  import opened ViewGeneratorTermination
  import opened Runs

  // ----- a quorum hears of a smaller view before it converges -----

  /** The views of the run, and the process that starts with the smaller one. */
  datatype Pair = Pair(late: Process, small: View, big: View)

  function Both(c: Pair): ViewSeq {
    [c.big, c.small]
  }

  ghost predicate PairOk(m: set<Process>, views: iset<View>, c: Pair, ps: set<Process>) {
    && c.small in views && c.big in views && c.small < c.big
    && c.late in m && c.late !in ps && ps <= m && |ps| == QuorumSize(|m|) >= 2
  }

  /** Process p has proposed [big], heard of the smaller view, and proposed both. */
  ghost predicate AddedAt(s: State, p: Process, c: Pair) {
    && p in s.workers && s.workers[p] == Added(p, c.late, c.small, c.big)
    && |Log(s, p)| == 3 && InRange(Log(s, p), |s.sent|)
    && s.sent[Log(s, p)[0]] == Plain(p, c.big) && s.sent[Log(s, p)[1]] == Msg(p, Both(c), [])
    && s.sent[Log(s, p)[2]] == Plain(c.late, c.small)
  }

  lemma AddedStays(s: State, t: State, p: Process, c: Pair, ps: set<Process>)
    requires AddedAt(s, p, c) && Only(s, t, ps) && p !in ps
    ensures AddedAt(t, p, c) && Log(t, p) == Log(s, p)
  {
    assert Kept(s, t, p);
  }

  lemma AddOne(m: set<Process>, views: iset<View>, s: State, p: Process, c: Pair) returns (t: State)
    requires FreshAt(s, p, c.big) && p != c.late && c.small < c.big && QuorumSize(|m|) >= 2
    requires |s.sent| > 0 && s.sent[0] == Plain(c.late, c.small)
    ensures Reaches(Step(m, views), s, t) && Only(s, t, {p}) && AddedAt(t, p, c)
  {
    assert s.sent[Log(s, p)[0]] != s.sent[0];
    t := AddAct(m, views, s, p, c);
    var k, n := Log(s, p)[0], |s.sent|;
    assert Log(t, p) == [k, n, 0];
  }

  lemma AddAct(m: set<Process>, views: iset<View>, s: State, p: Process, c: Pair) returns (t: State)
    requires p in s.workers && s.workers[p] == Fresh(p, c.big) && p != c.late && c.small < c.big
    requires QuorumSize(|m|) >= 2 && |s.sent| > 0 && s.sent[0] == Plain(c.late, c.small) && 0 !in Log(s, p)
    ensures Reaches(Step(m, views), s, t) && Only(s, t, {p})
    ensures t.sent == s.sent + [Msg(p, Both(c), [])] && Log(t, p) == Log(s, p) + [|s.sent|] + [0]
    ensures p in t.workers && t.workers[p] == Added(p, c.late, c.small, c.big)
  {
    LeadAdds(p, c.late, c.small, c.big, QuorumSize(|m|));
    t := Act(m, views, s, p, 0, Added(p, c.late, c.small, c.big), Msg(p, Both(c), []));
  }

  lemma {:induction false} AddAll(m: set<Process>, views: iset<View>, s: State, ps: set<Process>, c: Pair)
    returns (t: State)
    requires (forall p | p in ps :: FreshAt(s, p, c.big)) && c.late !in ps && c.small < c.big && QuorumSize(|m|) >= 2
    requires |s.sent| > 0 && s.sent[0] == Plain(c.late, c.small)
    ensures Reaches(Step(m, views), s, t) && Only(s, t, ps) && forall p | p in ps :: AddedAt(t, p, c)
    decreases |ps|
  {
    if ps == {} {
      t := s;
      Stay(Step(m, views), s);
      NobodyBegun(s, c.big);
    } else {
      var p :| p in ps;
      var u := AddAll(m, views, s, ps - {p}, c);
      FreshStays(s, u, p, c.big, ps - {p});
      t := AddOne(m, views, u, p, c);
      forall x | x in ps - {p} ensures AddedAt(t, x, c) { AddedStays(u, t, x, c, {p}); }
      Then(m, views, s, ps - {p}, u, {p}, t, ps);
    }
  }

  // ----- each of them converges twice -----

  ghost predicate EachAdded(t: State, ps: set<Process>, c: Pair) {
    forall p | p in ps :: AddedAt(t, p, c)
  }

  ghost predicate AllAdded(t: State, order: seq<Process>, c: Pair) {
    forall i | 0 <= i < |order| :: AddedAt(t, order[i], c)
  }

  /** What each of the processes sent first (i = 0) or second (i = 1). */
  function SentAs(t: State, order: seq<Process>, i: nat): (ks: seq<nat>)
    requires forall j | 0 <= j < |order| :: i < |Log(t, order[j])|
    ensures |ks| == |order|
  {
    seq(|order|, j requires 0 <= j < |order| => Log(t, order[j])[i])
  }

  lemma SentAsBatch(t: State, s: State, order: seq<Process>, c: Pair, i: nat, x: ViewSeq, p: Process)
    requires Distinct(order) && p !in order && AllAdded(t, order, c) && t.sent <= s.sent
    requires (i == 0 && x == [c.big]) || (i == 1 && x == Both(c))
    ensures Batch(s, SentAs(t, order, i), x, 1, p)
  {
    var ks := SentAs(t, order, i);
    forall j | 0 <= j < |ks|
      ensures ks[j] < |s.sent| && Proposes(s.sent[ks[j]], x) && s.sent[ks[j]].sender == order[j]
    {
      assert AddedAt(t, order[j], c);
    }
    forall j, k | 0 <= j < k < |ks| ensures ks[j] != ks[k] { assert order[j] != order[k]; }
  }

  lemma AddedCounts(p: Process, c: Pair)
    requires c.small < c.big
    ensures var w := Added(p, c.late, c.small, c.big);
            && Counting(w, [c.big], 1, p) && Counting(w, Both(c), 1, p) && Knows(w, [c.big]) && Knows(w, Both(c))
  {
    var w := Added(p, c.late, c.small, c.big);
    PlainLike(p, c.big, c.big);
    TwoNotLike(p, c.big, c.small, c.big);
    PlainLike(c.late, c.small, c.big);
    assert TalliedAt(w.msgs, [c.big], 1, p, 0);
    ProposesIsLike(Msg(p, Both(c), []), Both(c));
    assert c.big in AsSet(Both(c)) && c.small in AsSet(Both(c));
    assert c.small !in AsSet([c.big]) && c.big !in AsSet([c.small]);
    assert TalliedAt(w.msgs, Both(c), 1, p, 1);
  }

  lemma PairIsProper(c: Pair)
    requires c.small < c.big
    ensures Proper([c.big]) && Proper(Both(c)) && AsSet([c.big]) != AsSet(Both(c))
  {
    assert c.small in AsSet(Both(c)) && c.small !in AsSet([c.big]);
  }

  /** Both sequences have been converged to n times more. */
  ghost predicate Gained(s: State, u: State, c: Pair, n: nat) {
    && multiset(u.convs)[[c.big]] >= multiset(s.convs)[[c.big]] + n
    && multiset(u.convs)[Both(c)] >= multiset(s.convs)[Both(c)] + n
  }

  lemma GainedThen(s: State, t: State, u: State, c: Pair, n: nat, k: nat)
    requires Gained(s, t, c, n) && Gained(t, u, c, k)
    ensures Gained(s, u, c, n + k)
  {
  }

  /** Process p, which still stands as in t, converges to [big] and then to both. */
  lemma CollectBoth(m: set<Process>, views: iset<View>, t: State, s: State, p: Process, order: seq<Process>, c: Pair)
    returns (u: State)
    requires c.small < c.big && AddedAt(s, p, c) && Distinct(order) && p !in order && t.sent <= s.sent
    requires AllAdded(t, order, c) && |order| + 1 == QuorumSize(|m|) >= 2
    ensures Reaches(Step(m, views), s, u) && Only(s, u, {p}) && Gained(s, u, c, 1)
  {
    var k0, k1 := SentAs(t, order, 0), SentAs(t, order, 1);
    PairIsProper(c);
    AddedCounts(p, c);
    SentAsBatch(t, s, order, c, 0, [c.big], p);
    SentAsBatch(t, s, order, c, 1, Both(c), p);
    NotHeard(s, p, c, k0, [c.big]);
    NotHeard(s, p, c, k1, Both(c));
    var v := Collect(m, views, s, p, k0, [c.big], 1, p, Both(c), 1, p);
    AsideApart(s, v, p, c, k0, k1);
    u := Collect(m, views, v, p, k1, Both(c), 1, p, Both(c), 1, p);
    Then(m, views, s, {p}, v, {p}, u, {p});
    MoreOf(s.convs, v.convs, Both(c));
    MoreOf(v.convs, u.convs, [c.big]);
  }

  lemma NotHeard(s: State, p: Process, c: Pair, ks: seq<nat>, x: ViewSeq)
    requires AddedAt(s, p, c) && Batch(s, ks, x, 1, p) && x != [c.small]
    ensures forall k | k in ks :: k !in Log(s, p)
  {
    forall k | k in ks ensures k !in Log(s, p) {
      var i :| 0 <= i < |ks| && ks[i] == k;
      assert Proposes(s.sent[ks[i]], x) && s.sent[ks[i]].sender != p;
    }
  }

  lemma AsideApart(s: State, v: State, p: Process, c: Pair, k0: seq<nat>, k1: seq<nat>)
    requires AddedAt(s, p, c) && Aside(s, v, p, k0, Both(c), 1, p)
    requires Batch(s, k0, [c.big], 1, p) && Batch(s, k1, Both(c), 1, p)
    requires forall k | k in k1 :: k !in Log(s, p)
    ensures Batch(v, k1, Both(c), 1, p) && forall k | k in k1 :: k !in Log(v, p)
  {
    forall k | k in k1 ensures k !in Log(v, p) {
      var i :| 0 <= i < |k1| && k1[i] == k;
      assert Proposes(s.sent[k1[i]], Both(c));
      forall j | 0 <= j < |k0| ensures k0[j] != k { assert Proposes(s.sent[k0[j]], [c.big]); }
    }
  }

  lemma PrefixThen<T>(a: seq<T>, b: seq<T>, c: seq<T>)
    requires a <= b <= c
    ensures a <= c
  {
    assert a == b[..|a|] == c[..|b|][..|a|] == c[..|a|];
  }

  lemma EachStays(s: State, v: State, ps: set<Process>, p: Process, c: Pair)
    requires EachAdded(s, ps, c) && Only(s, v, {p})
    ensures EachAdded(v, ps - {p}, c)
  {
    forall x | x in ps - {p} ensures AddedAt(v, x, c) { AddedStays(s, v, x, c, {p}); }
  }

  lemma OneConverges(m: set<Process>, views: iset<View>, t: State, s: State, all: set<Process>, p: Process, c: Pair)
    returns (u: State)
    requires c.small < c.big && p in all && |all| == QuorumSize(|m|) >= 2 && t.sent <= s.sent
    requires EachAdded(t, all, c) && AddedAt(s, p, c)
    ensures Reaches(Step(m, views), s, u) && Only(s, u, {p}) && Gained(s, u, c, 1)
  {
    var order := Enumerate(all - {p});
    forall i | 0 <= i < |order| ensures AddedAt(t, order[i], c) { assert order[i] in AsSet(order); }
    assert p !in AsSet(order);
    u := CollectBoth(m, views, t, s, p, order, c);
  }

  ghost predicate Led(m: set<Process>, views: iset<View>, s: State, u: State, ps: set<Process>, c: Pair, n: nat) {
    Reaches(Step(m, views), s, u) && Only(s, u, ps) && Gained(s, u, c, n)
  }

  lemma LedThen(m: set<Process>, views: iset<View>, s: State, p: Process, v: State, ps: set<Process>, u: State, c: Pair)
    requires Led(m, views, s, v, {p}, c, 1) && Led(m, views, v, u, ps - {p}, c, |ps - {p}|) && p in ps
    ensures Led(m, views, s, u, ps, c, |ps|)
  {
    Then(m, views, s, {p}, v, ps - {p}, u, ps);
    GainedThen(s, v, u, c, 1, |ps - {p}|);
    assert |ps - {p}| == |ps| - 1;
  }

  lemma LedNone(m: set<Process>, views: iset<View>, s: State, c: Pair)
    ensures Led(m, views, s, s, {}, c, 0)
  {
    Stay(Step(m, views), s);
    NobodyBegun(s, c.big);
  }

  /** All processes of ps converge to both sequences; `all` is the quorum they belong to. */
  lemma {:induction false} AllConverge(m: set<Process>, views: iset<View>, t: State, s: State, all: set<Process>,
                                       ps: set<Process>, c: Pair) returns (u: State)
    requires c.small < c.big && ps <= all && |all| == QuorumSize(|m|) >= 2 && t.sent <= s.sent
    requires EachAdded(t, all, c) && EachAdded(s, ps, c)
    ensures Led(m, views, s, u, ps, c, |ps|)
    decreases |ps|
  {
    if ps == {} {
      u := s;
      LedNone(m, views, s, c);
    } else {
      var p :| p in ps;
      var v := OneConverges(m, views, t, s, all, p, c);
      EachStays(s, v, ps, p, c);
      PrefixThen(t.sent, s.sent, v.sent);
      u := AllConverge(m, views, t, v, all, ps - {p}, c);
      LedThen(m, views, s, p, v, ps, u, c);
    }
  }

  /** Both [big] and [big, small] are generated. */
  lemma BothNested(m: set<Process>, views: iset<View>, c: Pair, ps: set<Process>) returns (t: State)
    requires PairOk(m, views, c, ps)
    ensures Reaches(Step(m, views), EMPTY, t) && [c.big] in t.generated && Both(c) in t.generated
  {
    var s1 := BeginOne(m, views, EMPTY, c.late, c.small);
    forall p | p in ps ensures p !in s1.workers && Log(s1, p) == [] { assert Kept(EMPTY, s1, p); }
    var s2, ks := BeginOthers(m, views, s1, ps, c.big);
    assert s2.sent[0] == s1.sent[0];
    var s3 := AddAll(m, views, s2, ps, c);
    assert EachAdded(s3, ps, c);
    var s4 := AllConverge(m, views, s3, s3, ps, ps, c);
    Then(m, views, EMPTY, {c.late}, s1, ps, s2, ps + {c.late});
    Then(m, views, EMPTY, ps + {c.late}, s2, ps, s3, ps + {c.late});
    Then(m, views, EMPTY, ps + {c.late}, s3, ps, s4, ps + {c.late});
    t := GenerateAll(m, views, s4, c, ps);
    Concat(Step(m, views), EMPTY, s4, t);
  }

  lemma GenerateAll(m: set<Process>, views: iset<View>, s: State, c: Pair, ps: set<Process>) returns (t: State)
    requires Silent(s) && c.late in s.workers && QuorumSize(|m|) >= 2
    requires multiset(s.convs)[[c.big]] >= QuorumSize(|m|) && multiset(s.convs)[Both(c)] >= QuorumSize(|m|)
    ensures Reaches(Step(m, views), s, t) && [c.big] in t.generated && Both(c) in t.generated
  {
    t := DeliverAll(m, views, s, c.late, |s.convs|);
    assert s.convs[..|s.convs|] == s.convs;
  }

  // ----- every proposal keeps its sender's initial views -----

  ghost predicate Began(es: seq<Event>, i: nat, p: Process, x: ViewSeq) {
    exists b :: 0 <= b < i && b < |es| && es[b] == Begin(p, x)
  }

  /** Process p has begun, with views that are all among those of y. */
  ghost predicate KeepsInitial(es: seq<Event>, i: nat, p: Process, y: ViewSeq) {
    exists x :: Began(es, i, p, x) && AsSet(x) <= AsSet(y)
  }

  ghost predicate InitialKept(es: seq<Event>, i: nat, s: State) {
    && (forall p {:trigger s.workers[p]} | p in s.workers :: KeepsInitial(es, i, p, s.workers[p].proposed))
    && (forall j {:trigger s.sent[j]} | 0 <= j < |s.sent| :: KeepsInitial(es, i, s.sent[j].sender, s.sent[j].proposed))
  }

  lemma KeepsGrows(es: seq<Event>, i: nat, j: nat, p: Process, y: ViewSeq, z: ViewSeq)
    requires KeepsInitial(es, i, p, y) && i <= j && AsSet(y) <= AsSet(z)
    ensures KeepsInitial(es, j, p, z)
  {
    var x :| Began(es, i, p, x) && AsSet(x) <= AsSet(y);
    var b :| 0 <= b < i && b < |es| && es[b] == Begin(p, x);
    assert Began(es, j, p, x);
  }

  lemma WorkerKeeps(m: set<Process>, tr: seq<State>, es: seq<Event>, i: nat)
    requires Run(m, tr, es) && i < |es| && AllComparable(InitialViews(es)) && InitialKept(es, i, tr[i])
    requires !es[i].DeliverConv?
    ensures KeepsInitial(es, i + 1, es[i].p, Output(m, tr[i], es[i]).worker.proposed)
  {
    var s, e := tr[i], es[i];
    RunGrows(m, tr, es, i);
    assert Within(e, InitialViews(es));
    OutputGrows(m, s, e, InitialViews(es));
    if e.Begin? {
      assert Began(es, i + 1, e.p, e.initial);
    } else {
      KeepsGrows(es, i, i + 1, e.p, s.workers[e.p].proposed, Output(m, s, e).worker.proposed);
    }
  }

  lemma {:induction false} RunKeepsInitial(m: set<Process>, tr: seq<State>, es: seq<Event>, i: nat)
    requires Run(m, tr, es) && i < |tr| && AllComparable(InitialViews(es))
    ensures InitialKept(es, i, tr[i])
  {
    if i > 0 {
      RunKeepsInitial(m, tr, es, i - 1);
      InitialStep(m, tr, es, i - 1);
    }
  }

  lemma InitialStep(m: set<Process>, tr: seq<State>, es: seq<Event>, i: nat)
    requires Run(m, tr, es) && i < |es| && AllComparable(InitialViews(es)) && InitialKept(es, i, tr[i])
    ensures InitialKept(es, i + 1, tr[i + 1])
  {
    var s' := tr[i + 1];
    forall p | p in s'.workers ensures KeepsInitial(es, i + 1, p, s'.workers[p].proposed) {
      WorkerStep(m, tr, es, i, p);
    }
    forall j | 0 <= j < |s'.sent| ensures KeepsInitial(es, i + 1, s'.sent[j].sender, s'.sent[j].proposed) {
      SentStep(m, tr, es, i, j);
    }
  }

  lemma WorkerStep(m: set<Process>, tr: seq<State>, es: seq<Event>, i: nat, p: Process)
    requires Run(m, tr, es) && i < |es| && AllComparable(InitialViews(es)) && InitialKept(es, i, tr[i])
    requires p in tr[i + 1].workers
    ensures KeepsInitial(es, i + 1, p, tr[i + 1].workers[p].proposed)
  {
    var s, e := tr[i], es[i];
    SentSplits(m, s, e);
    if !e.DeliverConv? && p == e.p {
      WorkerKeeps(m, tr, es, i);
    } else {
      KeepsGrows(es, i, i + 1, p, s.workers[p].proposed, tr[i + 1].workers[p].proposed);
    }
  }

  /** A new proposal is the sender's, and it is not empty. */
  lemma NewestMessage(m: set<Process>, s: State, e: Event, u: set<View>, j: nat)
    requires Grows(s, u) && AllComparable(u) && Enabled(m, s, e) && Within(e, u)
    requires |s.sent| <= j < |Next(m, s, e).sent|
    ensures !e.DeliverConv?
    ensures var msg := Next(m, s, e).sent[j];
            msg.sender == e.p && msg.proposed == Output(m, s, e).worker.proposed && msg.proposed != []
  {
    SentSplits(m, s, e);
    OutputGrows(m, s, e, u);
    var w, o := ViewGeneratorChains.Before(s, e.p), Output(m, s, e);
    assert o.worker.proposed == [] ==> AsSet(o.worker.proposed) <= AsSet(w.proposed);
  }

  lemma SentBefore(m: set<Process>, s: State, e: Event, j: nat)
    requires Enabled(m, s, e) && j < |s.sent|
    ensures j < |Next(m, s, e).sent| && Next(m, s, e).sent[j] == s.sent[j]
  {
  }

  lemma SentStep(m: set<Process>, tr: seq<State>, es: seq<Event>, i: nat, j: nat)
    requires Run(m, tr, es) && i < |es| && AllComparable(InitialViews(es)) && InitialKept(es, i, tr[i])
    requires j < |tr[i + 1].sent|
    ensures KeepsInitial(es, i + 1, tr[i + 1].sent[j].sender, tr[i + 1].sent[j].proposed)
  {
    var s := tr[i];
    if j < |s.sent| {
      SentBefore(m, s, es[i], j);
      KeepsGrows(es, i, i + 1, s.sent[j].sender, s.sent[j].proposed, s.sent[j].proposed);
    } else {
      RunGrows(m, tr, es, i);
      assert Within(es[i], InitialViews(es));
      NewestMessage(m, s, es[i], InitialViews(es), j);
      WorkerKeeps(m, tr, es, i);
    }
  }

  // ----- when all generated sequences share their least view -----

  ghost predicate Lacks(es: seq<Event>, p: Process, u: View) {
    exists x :: Began(es, |es|, p, x) && u !in x
  }

  /** The members that start without view u. */
  ghost function Lacking(m: set<Process>, es: seq<Event>, u: View): set<Process> {
    set p | p in m && Lacks(es, p, u)
  }

  ghost predicate DistinctStart(es: seq<Event>) {
    forall j | 0 <= j < |es| && es[j].Begin? :: Distinct(es[j].initial)
  }

  lemma SupportLacks(m: set<Process>, tr: seq<State>, es: seq<Event>, i: nat, c: ViewSeq, u: View)
    requires Run(m, tr, es) && AllComparable(InitialViews(es)) && DistinctStart(es) && i < |tr|
    requires u !in c
    ensures Support(tr[i].sent, c) <= Lacking(m, es, u)
  {
    RunKeepsInitial(m, tr, es, i);
    ComparableMeansProper(es);
    RunInv(m, tr, es, i);
    var s := tr[i];
    forall p | p in Support(s.sent, c) ensures p in Lacking(m, es, u) {
      var j :| 0 <= j < |s.sent| && AsSet(s.sent[j].proposed) == AsSet(c) && s.sent[j].sender == p;
      assert SentOk(s, j);
      assert KeepsInitial(es, i, p, s.sent[j].proposed);
      var x :| Began(es, i, p, x) && AsSet(x) <= AsSet(s.sent[j].proposed);
      var b :| 0 <= b < i && b < |es| && es[b] == Begin(p, x);
      assert Began(es, |es|, p, x);
      assert u in x ==> u in AsSet(x);
    }
  }

  /** If fewer members than a quorum start without u, and u is contained in every initial view,
      then u is the least view of every converged sequence, and so of every generated one. */
  lemma LeastIsShared(m: set<Process>, tr: seq<State>, es: seq<Event>, i: nat, c: ViewSeq, u: View)
    requires Run(m, tr, es) && AllComparable(InitialViews(es)) && DistinctStart(es) && i < |tr|
    requires c in tr[i].convs || c in tr[i].generated
    requires (forall v | v in InitialViews(es) :: u <= v) && |Lacking(m, es, u)| < QuorumSize(|m|)
    ensures c != [] && LeastUpdated(c) == u
  {
    ComparableMeansProper(es);
    ComparableMeansNoRepeats(m, tr, es, i);
    RunInv(m, tr, es, i);
    RunConverged(m, tr, es, i);
    RunGrows(m, tr, es, i);
    assert |Support(tr[i].sent, c)| >= QuorumSize(|m|);
    if u !in c {
      SupportLacks(m, tr, es, i, c, u);
      SubsetCardinality(Support(tr[i].sent, c), Lacking(m, es, u));
      assert false;
    }
    ConvergedWithin(m, tr, es, i, c);
    LeastUpdatedIsMinimum(c);
    assert LeastUpdated(c) in AsSet(c);
  }

  lemma ConvergedWithin(m: set<Process>, tr: seq<State>, es: seq<Event>, i: nat, c: ViewSeq)
    requires Run(m, tr, es) && AllComparable(InitialViews(es)) && DistinctStart(es) && i < |tr|
    requires c in tr[i].convs || c in tr[i].generated
    ensures Proper(c) && AsSet(c) <= InitialViews(es)
  {
    ComparableMeansProper(es);
    ComparableMeansNoRepeats(m, tr, es, i);
    RunInv(m, tr, es, i);
    RunConverged(m, tr, es, i);
    RunGrows(m, tr, es, i);
    var s := tr[i];
    QuorumSizeIsMajority(|m|);
    assert Support(s.sent, c) != {};
    var p :| p in Support(s.sent, c);
    var j :| 0 <= j < |s.sent| && AsSet(s.sent[j].proposed) == AsSet(c) && s.sent[j].sender == p;
    assert SentGrows(s, InitialViews(es), j);
  }

  // ----- the exact condition -----

  lemma {:induction false} LeastOfChain(views: set<View>) returns (u: View)
    requires views != {} && AllComparable(views)
    ensures u in views && forall v | v in views :: u <= v
    decreases |views|
  {
    u :| u in views;
    if views != {u} {
      var w := LeastOfChain(views - {u});
      assert Comparable(u, w);
      var least := if w <= u then w else u;
      forall v | v in views ensures least <= v { if v != u { assert v in views - {u}; } }
      u := least;
    }
  }

  lemma {:induction false} WorkersStay(m: set<Process>, tr: seq<State>, es: seq<Event>, j: nat, i: nat, p: Process)
    requires Run(m, tr, es) && j <= i < |tr| && p in tr[j].workers
    ensures p in tr[i].workers
    decreases i - j
  {
    if j < i {
      assert p in tr[j + 1].workers;
      WorkersStay(m, tr, es, j + 1, i, p);
    }
  }

  /** A process begins at most once. */
  lemma BeginsOnce(m: set<Process>, tr: seq<State>, es: seq<Event>, p: Process, x: ViewSeq, y: ViewSeq)
    requires Run(m, tr, es) && Began(es, |es|, p, x) && Began(es, |es|, p, y)
    ensures x == y && p in m
  {
    var b :| 0 <= b < |es| && es[b] == Begin(p, x);
    var d :| 0 <= d < |es| && es[d] == Begin(p, y);
    assert Enabled(m, tr[b], es[b]) && Enabled(m, tr[d], es[d]);
    if b < d { WorkersStay(m, tr, es, b + 1, d, p); }
    if d < b { WorkersStay(m, tr, es, d + 1, b, p); }
  }

  /** With at most two members, fewer than a quorum start without the least initial view. */
  lemma FewLack(m: set<Process>, tr: seq<State>, es: seq<Event>, u: View)
    requires Run(m, tr, es) && |m| <= 2 && u in InitialViews(es)
    ensures |Lacking(m, es, u)| < QuorumSize(|m|)
  {
    var b, v :| 0 <= b < |es| && es[b].Begin? && v in es[b].initial && v == u;
    var p, x := es[b].p, es[b].initial;
    assert Began(es, |es|, p, x);
    BeginsOnce(m, tr, es, p, x, x);
    forall y | Began(es, |es|, p, y) ensures y == x { BeginsOnce(m, tr, es, p, x, y); }
    assert p !in Lacking(m, es, u);
    SubsetCardinality(Lacking(m, es, u), m - {p});
    QuorumSizeIsMajority(|m|);
  }

  /** In every run with comparable initial views, all generated sequences are installed from the
      same view on. */
  ghost predicate OneInstallView(m: set<Process>, base: View) {
    forall tr: seq<State>, es: seq<Event>, i: nat, c: ViewSeq, c': ViewSeq ::
      ComparableRun(m, base, tr, es) && i < |tr| && c in tr[i].generated && c' in tr[i].generated ==> SameLeast(c, c')
  }

  ghost predicate ComparableRun(m: set<Process>, base: View, tr: seq<State>, es: seq<Event>) {
    Run(m, tr, es) && StartsIn(es, Extending(base)) && AllComparable(InitialViews(es))
  }

  ghost predicate SameLeast(c: ViewSeq, c': ViewSeq) {
    c != [] && c' != [] && LeastUpdated(c) == LeastUpdated(c')
  }

  lemma SmallViewsShareLeast(m: set<Process>, base: View, tr: seq<State>, es: seq<Event>, i: nat,
                             c: ViewSeq, c': ViewSeq)
    requires |m| <= 2 && ComparableRun(m, base, tr, es) && i < |tr| && c in tr[i].generated && c' in tr[i].generated
    ensures SameLeast(c, c')
  {
    forall j | 0 <= j < |es| && es[j].Begin? ensures Distinct(es[j].initial) { assert From(es[j], Extending(base)); }
    SomethingBegan(m, tr, es, i, c);
    var u := LeastOfChain(InitialViews(es));
    FewLack(m, tr, es, u);
    LeastIsShared(m, tr, es, i, c, u);
    LeastIsShared(m, tr, es, i, c', u);
  }

  lemma SomethingBegan(m: set<Process>, tr: seq<State>, es: seq<Event>, i: nat, c: ViewSeq)
    requires Run(m, tr, es) && AllComparable(InitialViews(es)) && DistinctStart(es) && i < |tr| && c in tr[i].generated
    ensures InitialViews(es) != {}
  {
    ComparableMeansProper(es);
    ComparableMeansNoRepeats(m, tr, es, i);
    RunInv(m, tr, es, i);
    RunConverged(m, tr, es, i);
    RunGrows(m, tr, es, i);
    var s := tr[i];
    QuorumSizeIsMajority(|m|);
    assert Support(s.sent, c) != {};
    var j :| 0 <= j < |s.sent|;
    assert SentGrows(s, InitialViews(es), j);
    SentNotEmpty(m, tr, es, i, j);
    assert s.sent[j].proposed[0] in AsSet(s.sent[j].proposed);
  }

  lemma {:induction false} SentNotEmpty(m: set<Process>, tr: seq<State>, es: seq<Event>, i: nat, j: nat)
    requires Run(m, tr, es) && i < |tr| && j < |tr[i].sent| && AllComparable(InitialViews(es))
    ensures tr[i].sent[j].proposed != []
  {
    if i > 0 {
      var s := tr[i - 1];
      if j < |s.sent| {
        SentBefore(m, s, es[i - 1], j);
        SentNotEmpty(m, tr, es, i - 1, j);
      } else {
        RunGrows(m, tr, es, i - 1);
        assert Within(es[i - 1], InitialViews(es));
        NewestMessage(m, s, es[i - 1], InitialViews(es), j);
      }
    }
  }

  /** With three or more members two generated sequences can start with different views. */
  lemma NestedHappens(m: set<Process>, base: View) returns (tr: seq<State>, es: seq<Event>, v1: View, v2: View)
    requires |m| >= 3
    ensures Run(m, tr, es) && StartsIn(es, Extending(base)) && InitialViews(es) <= {v1, v2} && base < v1 < v2
    ensures [v2] in tr[|es|].generated && [v2, v1] in tr[|es|].generated
  {
    QuorumSizeIsMajority(|m|);
    var ps := Part(m, QuorumSize(|m|));
    assert |m - ps| == |m| - |ps|;
    var late :| late in m - ps;
    var a, b, aa, bb := FourViews(base);
    v1, v2 := a, aa;
    var c := Pair(late, v1, v2);
    var views := iset{v1, v2};
    var t := BothNested(m, views, c, ps);
    tr, es := PathOf(Step(m, views), EMPTY, t);
    PathIsRun(m, views, tr, es);
    forall i | 0 <= i < |es| ensures From(es[i], Extending(base)) { assert From(es[i], views); }
    forall v | v in InitialViews(es) ensures v in {v1, v2} {
      var i :| 0 <= i < |es| && es[i].Begin? && v in es[i].initial;
      assert From(es[i], views);
    }
  }

  lemma LeastOfPair(v1: View, v2: View)
    requires v1 < v2
    ensures LeastUpdated([v2]) == v2 && LeastUpdated([v2, v1]) == v1
  {
    LeastUpdatedIsMinimum([v2]);
    LeastUpdatedIsMinimum([v2, v1]);
    assert v1 in [v2, v1];
  }

  /** The condition is the size of the view. */
  lemma OneInstallViewIffAtMostTwo(m: set<Process>, base: View)
    ensures OneInstallView(m, base) <==> |m| <= 2
  {
    if |m| <= 2 {
      forall tr: seq<State>, es: seq<Event>, i: nat, c: ViewSeq, c': ViewSeq
        | ComparableRun(m, base, tr, es) && i < |tr| && c in tr[i].generated && c' in tr[i].generated
        ensures SameLeast(c, c')
      {
        SmallViewsShareLeast(m, base, tr, es, i, c, c');
      }
    } else {
      var tr, es, v1, v2 := NestedHappens(m, base);
      LeastOfPair(v1, v2);
      assert ComparableRun(m, base, tr, es) && !SameLeast([v2], [v2, v1]);
    }
  }
}
