/**
 The exact condition for convergence: any two converged sequences have comparable most updated
 views, in every run, if and only if the view has at most three members; the same holds for any
 two generated ones. With four or more members, two sides of the view each repeat one proposal,
 and two incomparable sequences are generated.
 */
module ViewGeneratorDivergence {
  import opened Views
  import opened ViewSeqs
  import opened QuorumCounters
  import opened ViewGenerator
  import opened ViewGeneratorChains
  import opened ViewGeneratorConvergence
  import opened ViewGeneratorRepeats
  import opened Runs

  /** One side of the run: the lead proposes `big` and will repeat it, the helper starts with
      `small` and comes to propose `big` too, and the others propose `big` from the start. */
  datatype Side = Side(helper: Process, lead: Process, others: set<Process>, small: View, big: View)

  function All(a: Side): set<Process> {
    {a.helper, a.lead} + a.others
  }

  ghost predicate SideOk(m: set<Process>, views: iset<View>, a: Side) {
    && a.helper != a.lead && a.helper !in a.others && a.lead !in a.others && All(a) <= m
    && |a.others| + 3 == QuorumSize(|m|) && a.small in views && a.big in views
  }

  ghost predicate Cast(m: set<Process>, views: iset<View>, a: Side, b: Side) {
    && SideOk(m, views, a) && SideOk(m, views, b) && All(a) !! All(b)
    && a.small < a.big && a.small < b.big && b.small < a.big && b.small < b.big
    && Conflict(a.small, b.small) && Conflict(a.big, b.big)
  }

  // ----- single steps -----

  lemma BeginOne(m: set<Process>, views: iset<View>, s: State, p: Process, v: View) returns (t: State)
    requires p in m && p !in s.workers && Log(s, p) == [] && v in views && QuorumSize(|m|) >= 2
    ensures Reaches(Step(m, views), s, t) && Only(s, t, {p})
    ensures t.sent == s.sent + [Plain(p, v)]
    ensures p in t.workers && t.workers[p] == Fresh(p, v) && Log(t, p) == [|s.sent|]
  {
    BeginsFresh(p, v, QuorumSize(|m|));
    BeginOnly(m, s, p, [v]);
    t := Next(m, s, Begin(p, [v]));
    assert Enabled(m, s, Begin(p, [v])) && From(Begin(p, [v]), views);
    Once(Step(m, views), s, Begin(p, [v]), t);
    assert [] + [|s.sent|] + [] == [|s.sent|];
  }

  lemma Act(m: set<Process>, views: iset<View>, s: State, p: Process, k: nat, w: Worker, msg: Msg) returns (t: State)
    requires p in s.workers && k < |s.sent| && k !in Log(s, p)
    requires OnMsg(p, s.workers[p], s.sent[k], QuorumSize(|m|)) == Out(w, [msg], [])
    ensures Reaches(Step(m, views), s, t) && Only(s, t, {p})
    ensures t.sent == s.sent + [msg] && p in t.workers && t.workers[p] == w
    ensures Log(t, p) == Log(s, p) + [|s.sent|] + [k]
  {
    DeliverOnly(m, s, p, k);
    t := Next(m, s, Deliver(p, k));
    assert Enabled(m, s, Deliver(p, k)) && From(Deliver(p, k), views);
    Once(Step(m, views), s, Deliver(p, k), t);
  }

  // ----- one side repeats its proposal -----

  /** Side a has begun: message i is its helper's and message i + 1 its lead's. */
  ghost predicate Begun(s: State, a: Side, i: nat) {
    && a.helper in s.workers && s.workers[a.helper] == Fresh(a.helper, a.small) && Log(s, a.helper) == [i]
    && a.lead in s.workers && s.workers[a.lead] == Fresh(a.lead, a.big) && Log(s, a.lead) == [i + 1]
    && i + 1 < |s.sent| && s.sent[i] == Plain(a.helper, a.small) && s.sent[i + 1] == Plain(a.lead, a.big)
  }

  /** After its three further steps, which start at message n, with j the other helper's first. */
  ghost predicate Turned(s: State, a: Side, b: Side, i: nat, j: nat, n: nat) {
    && i + 1 < n && j < n && n + 2 < |s.sent|
    && s.sent[i] == Plain(a.helper, a.small) && s.sent[i + 1] == Plain(a.lead, a.big)
    && s.sent[j] == Plain(b.helper, b.small) && s.sent[n] == Msg(a.lead, [a.big, b.small], [])
    && s.sent[n + 1] == Plain(a.helper, a.big) && s.sent[n + 2] == Plain(a.lead, a.big)
    && a.helper in s.workers && s.workers[a.helper] == Joined(a.helper, a.lead, a.small, b.small, a.big)
    && a.lead in s.workers
    && s.workers[a.lead] == Repeated(a.lead, b.helper, a.helper, a.small, b.small, a.big)
    && Log(s, a.helper) == [i] + [n + 1] + [n] && Log(s, a.lead) == [i + 1] + [n] + [j] + [n + 2] + [i]
  }

  lemma LeadActs(m: set<Process>, views: iset<View>, s: State, a: Side, b: Side, j: nat) returns (t: State)
    requires Cast(m, views, a, b) && a.lead in s.workers && s.workers[a.lead] == Fresh(a.lead, a.big)
    requires j < |s.sent| && s.sent[j] == Plain(b.helper, b.small) && j !in Log(s, a.lead)
    ensures Reaches(Step(m, views), s, t) && Only(s, t, {a.lead})
    ensures t.sent == s.sent + [Msg(a.lead, [a.big, b.small], [])]
    ensures a.lead in t.workers && t.workers[a.lead] == Added(a.lead, b.helper, b.small, a.big)
    ensures Log(t, a.lead) == Log(s, a.lead) + [|s.sent|] + [j]
  {
    LeadAdds(a.lead, b.helper, b.small, a.big, QuorumSize(|m|));
    t := Act(m, views, s, a.lead, j, Added(a.lead, b.helper, b.small, a.big), Msg(a.lead, [a.big, b.small], []));
  }

  lemma HelperActs(m: set<Process>, views: iset<View>, s: State, a: Side, b: Side, n: nat) returns (t: State)
    requires Cast(m, views, a, b) && a.helper in s.workers && s.workers[a.helper] == Fresh(a.helper, a.small)
    requires n < |s.sent| && s.sent[n] == Msg(a.lead, [a.big, b.small], []) && n !in Log(s, a.helper)
    ensures Reaches(Step(m, views), s, t) && Only(s, t, {a.helper})
    ensures t.sent == s.sent + [Plain(a.helper, a.big)]
    ensures a.helper in t.workers && t.workers[a.helper] == Joined(a.helper, a.lead, a.small, b.small, a.big)
    ensures Log(t, a.helper) == Log(s, a.helper) + [|s.sent|] + [n]
  {
    HelperJoins(a.helper, a.lead, a.small, b.small, a.big, QuorumSize(|m|));
    t := Act(m, views, s, a.helper, n, Joined(a.helper, a.lead, a.small, b.small, a.big), Plain(a.helper, a.big));
  }

  lemma LeadActsAgain(m: set<Process>, views: iset<View>, s: State, a: Side, b: Side, i: nat) returns (t: State)
    requires Cast(m, views, a, b) && a.lead in s.workers
    requires s.workers[a.lead] == Added(a.lead, b.helper, b.small, a.big)
    requires i < |s.sent| && s.sent[i] == Plain(a.helper, a.small) && i !in Log(s, a.lead)
    ensures Reaches(Step(m, views), s, t) && Only(s, t, {a.lead})
    ensures t.sent == s.sent + [Plain(a.lead, a.big)]
    ensures a.lead in t.workers
    ensures t.workers[a.lead] == Repeated(a.lead, b.helper, a.helper, a.small, b.small, a.big)
    ensures Log(t, a.lead) == Log(s, a.lead) + [|s.sent|] + [i]
  {
    LeadRepeats(a.lead, b.helper, a.helper, a.small, b.small, a.big, QuorumSize(|m|));
    var w := Repeated(a.lead, b.helper, a.helper, a.small, b.small, a.big);
    t := Act(m, views, s, a.lead, i, w, Plain(a.lead, a.big));
  }

  lemma TurnStarts(m: set<Process>, views: iset<View>, s: State, a: Side, b: Side, i: nat, j: nat) returns (t: State)
    requires Cast(m, views, a, b) && Begun(s, a, i) && j < |s.sent| && s.sent[j] == Plain(b.helper, b.small)
    ensures Reaches(Step(m, views), s, t) && Only(s, t, {a.helper, a.lead})
    ensures t.sent == s.sent + [Msg(a.lead, [a.big, b.small], [])] + [Plain(a.helper, a.big)]
    ensures a.helper in t.workers && t.workers[a.helper] == Joined(a.helper, a.lead, a.small, b.small, a.big)
    ensures a.lead in t.workers && t.workers[a.lead] == Added(a.lead, b.helper, b.small, a.big)
    ensures Log(t, a.helper) == [i] + [|s.sent| + 1] + [|s.sent|] && Log(t, a.lead) == [i + 1] + [|s.sent|] + [j]
  {
    assert b.helper in All(b) && a.lead in All(a) && a.helper in All(a);
    var u := LeadActs(m, views, s, a, b, j);
    assert Kept(s, u, a.helper);
    t := HelperActs(m, views, u, a, b, |s.sent|);
    assert Kept(u, t, a.lead);
    Then(m, views, s, {a.lead}, u, {a.helper}, t, {a.helper, a.lead});
  }

  lemma Turn(m: set<Process>, views: iset<View>, s: State, a: Side, b: Side, i: nat, j: nat) returns (t: State)
    requires Cast(m, views, a, b) && Begun(s, a, i) && j < |s.sent| && s.sent[j] == Plain(b.helper, b.small)
    ensures Reaches(Step(m, views), s, t) && Only(s, t, {a.helper, a.lead})
    ensures Turned(t, a, b, i, j, |s.sent|) && |t.sent| == |s.sent| + 3
  {
    assert b.helper in All(b) && a.lead in All(a) && a.helper in All(a);
    assert j != i && j != i + 1;
    var u := TurnStarts(m, views, s, a, b, i, j);
    t := LeadActsAgain(m, views, u, a, b, i);
    assert Kept(u, t, a.helper);
    Then(m, views, s, {a.helper, a.lead}, u, {a.lead}, t, {a.helper, a.lead});
  }

  // ----- what each side can then do -----

  lemma SingleIsOk(v: View, w: Worker)
    requires w.proposed == [v] && w.converged == []
    ensures WorkerOk(w) && MostUpdated(w.proposed) == v
  {
    MostOfOne(v);
  }

  /** The helper has counted its own proposal of `big`, and is ready for the other side's. */
  lemma HelperReady(m: set<Process>, views: iset<View>, s: State, a: Side, b: Side, i: nat, j: nat, n: nat)
    requires Cast(m, views, a, b) && Turned(s, a, b, i, j, n)
    ensures Counting(s.workers[a.helper], [a.big], 1, a.helper) && Knows(s.workers[a.helper], [a.big])
    ensures Ready(s, a.helper, [b.big])
  {
    var w := s.workers[a.helper];
    SingleIsOk(a.big, w);
    MostOfOne(b.big);
    PlainLike(a.helper, a.small, a.big);
    PlainLike(a.helper, a.big, a.big);
    TwoNotLike(a.lead, a.big, b.small, a.big);
    PlainLike(a.helper, a.small, b.big);
    PlainLike(a.helper, a.big, b.big);
    TwoNotLike(a.lead, a.big, b.small, b.big);
    assert TalliedAt(w.msgs, [a.big], 1, a.helper, 1);
    assert a.big in [a.big];
  }

  lemma LeadTallies(a: Side, b: Side)
    requires a.big != b.small && a.big != b.big && b.small != b.big && a.small != b.big
    ensures Tallied(Repeated(a.lead, b.helper, a.helper, a.small, b.small, a.big).msgs, [b.big], 0, a.lead)
  {
    PlainLike(a.lead, a.big, b.big);
    TwoNotLike(a.lead, a.big, b.small, b.big);
    PlainLike(b.helper, b.small, b.big);
    PlainLike(a.helper, a.small, b.big);
  }

  lemma LeadReady(m: set<Process>, views: iset<View>, s: State, a: Side, b: Side, i: nat, j: nat, n: nat)
    requires Cast(m, views, a, b) && Turned(s, a, b, i, j, n)
    ensures Ready(s, a.lead, [b.big])
  {
    SingleIsOk(a.big, s.workers[a.lead]);
    MostOfOne(b.big);
    LeadTallies(a, b);
    LeadHasNotHeard(s, a, b, i, j, n);
  }

  lemma LeadHasNotHeard(s: State, a: Side, b: Side, i: nat, j: nat, n: nat)
    requires Turned(s, a, b, i, j, n) && a.big != b.big && a.small != b.big && b.small != b.big
    ensures forall k | k in Log(s, a.lead) :: k < |s.sent| && !Proposes(s.sent[k], [b.big])
  {
    assert Log(s, a.lead) == [i + 1, n, j, n + 2, i];
  }

  lemma FreshReady(s: State, p: Process, v: View, v': View)
    requires FreshAt(s, p, v) && Conflict(v, v')
    ensures Ready(s, p, [v'])
  {
    SingleIsOk(v, s.workers[p]);
    MostOfOne(v');
    PlainLike(p, v, v');
    ProposesIsLike(Plain(p, v), [v]);
  }

  /** Process p has begun with v and done nothing else. */
  ghost predicate FreshAt(s: State, p: Process, v: View) {
    && p in s.workers && s.workers[p] == Fresh(p, v)
    && |Log(s, p)| == 1 && Log(s, p)[0] < |s.sent| && s.sent[Log(s, p)[0]] == Plain(p, v)
  }

  lemma FreshStays(s: State, t: State, p: Process, v: View, ps: set<Process>)
    requires FreshAt(s, p, v) && Only(s, t, ps) && p !in ps
    ensures FreshAt(t, p, v)
  {
    assert Kept(s, t, p);
  }

  /** Between s and t the processes ps have begun with `v`, in the messages ks. */
  ghost predicate OthersBegun(s: State, t: State, ps: set<Process>, ks: seq<nat>, v: View) {
    && Distinct(ks) && |ks| == |ps|
    && forall i | 0 <= i < |ks| :: BegunAt(s, t, ps, ks[i], v)
  }

  ghost predicate BegunAt(s: State, t: State, ps: set<Process>, k: nat, v: View) {
    |s.sent| <= k < |t.sent| && Proposes(t.sent[k], [v]) && t.sent[k].sender in ps
  }

  lemma OneMoreBegun(s: State, u: State, t: State, ps: set<Process>, ks: seq<nat>, v: View, p: Process)
    requires OthersBegun(s, u, ps, ks, v) && p !in ps && |s.sent| <= |u.sent|
    requires t.sent == u.sent + [Plain(p, v)]
    ensures OthersBegun(s, t, ps + {p}, ks + [|u.sent|], v)
  {
    var n := |u.sent|;
    forall k | k in ks ensures k != n && BegunAt(s, t, ps + {p}, k, v) { BegunStays(s, u, t, ps, ks, v, p, k); }
    DistinctAppend(ks, n);
  }

  lemma BegunStays(s: State, u: State, t: State, ps: set<Process>, ks: seq<nat>, v: View, p: Process, k: nat)
    requires OthersBegun(s, u, ps, ks, v) && k in ks && t.sent == u.sent + [Plain(p, v)]
    ensures k != |u.sent| && BegunAt(s, t, ps + {p}, k, v)
  {
    var i :| 0 <= i < |ks| && ks[i] == k;
    assert BegunAt(s, u, ps, ks[i], v);
    assert t.sent[k] == u.sent[k];
  }

  lemma DistinctAppend<T>(s: seq<T>, x: T)
    requires Distinct(s) && x !in s
    ensures Distinct(s + [x])
  {
  }

  lemma NobodyBegun(s: State, v: View)
    ensures Only(s, s, {}) && OthersBegun(s, s, {}, [], v)
  {
    forall x ensures Kept(s, s, x) { }
  }

  /** The processes ps begin with `v`. */
  lemma {:induction false} BeginOthers(m: set<Process>, views: iset<View>, s: State, ps: set<Process>, v: View)
    returns (t: State, ks: seq<nat>)
    requires ps <= m && ps !! s.workers.Keys && (forall p | p in ps :: Log(s, p) == [])
    requires v in views && QuorumSize(|m|) >= 2
    ensures Reaches(Step(m, views), s, t) && Only(s, t, ps) && OthersBegun(s, t, ps, ks, v)
    ensures forall p | p in ps :: FreshAt(t, p, v)
    decreases |ps|
  {
    if ps == {} {
      t, ks := s, [];
      Stay(Step(m, views), s);
      NobodyBegun(s, v);
    } else {
      var p :| p in ps;
      var rest := ps - {p};
      var u, ks0 := BeginOthers(m, views, s, rest, v);
      t := BeginAnother(m, views, s, u, rest, ks0, p, v);
      ks := ks0 + [|u.sent|];
      assert rest + {p} == ps;
    }
  }

  lemma BeginAnother(m: set<Process>, views: iset<View>, s: State, u: State, ps: set<Process>, ks: seq<nat>,
                     p: Process, v: View) returns (t: State)
    requires Reaches(Step(m, views), s, u) && Only(s, u, ps) && OthersBegun(s, u, ps, ks, v)
    requires (forall x | x in ps :: FreshAt(u, x, v)) && p in m && p !in ps && p !in s.workers && Log(s, p) == []
    requires v in views && QuorumSize(|m|) >= 2
    ensures Reaches(Step(m, views), s, t) && Only(s, t, ps + {p}) && OthersBegun(s, t, ps + {p}, ks + [|u.sent|], v)
    ensures forall x | x in ps + {p} :: FreshAt(t, x, v)
  {
    assert Kept(s, u, p);
    t := BeginOne(m, views, u, p, v);
    assert FreshAt(t, p, v);
    forall x | x in ps ensures FreshAt(t, x, v) { FreshStays(u, t, x, v, {p}); }
    Then(m, views, s, ps, u, {p}, t, ps + {p});
    OneMoreBegun(s, u, t, ps, ks, v, p);
  }

  // ----- the whole run -----

  lemma BeginSide(m: set<Process>, views: iset<View>, s: State, a: Side) returns (t: State)
    requires SideOk(m, views, a) && a.small < a.big && a.helper !in s.workers && a.lead !in s.workers
    requires Log(s, a.helper) == Log(s, a.lead) == []
    ensures Reaches(Step(m, views), s, t) && Only(s, t, {a.helper, a.lead})
    ensures Begun(t, a, |s.sent|) && |t.sent| == |s.sent| + 2
  {
    assert {a.helper, a.lead} <= All(a);
    var u := BeginOne(m, views, s, a.helper, a.small);
    assert Kept(s, u, a.lead);
    t := BeginOne(m, views, u, a.lead, a.big);
    assert Kept(u, t, a.helper);
    Then(m, views, s, {a.helper}, u, {a.lead}, t, {a.helper, a.lead});
  }

  /** Side a can converge to [big] with the messages ks, and is ready for the other side's. */
  ghost predicate SideDone(m: set<Process>, s: State, a: Side, b: Side, ks: seq<nat>) {
    && Batch(s, ks, [a.big], 0, a.helper) && |ks| == QuorumSize(|m|) && |ks| > 0
    && a.helper in s.workers && Counting(s.workers[a.helper], [a.big], 1, a.helper)
    && Knows(s.workers[a.helper], [a.big]) && (forall k | k in ks[1..] :: k !in Log(s, a.helper))
    && forall p | p in All(a) :: Ready(s, p, [b.big])
  }

  lemma SideDoneStays(m: set<Process>, s: State, t: State, a: Side, b: Side, ks: seq<nat>, ps: set<Process>)
    requires SideDone(m, s, a, b, ks) && Only(s, t, ps) && All(a) !! ps
    ensures SideDone(m, t, a, b, ks)
  {
    assert a.helper in All(a);
    assert Kept(s, t, a.helper);
    BatchStays(s, t, ks, [a.big], 0, a.helper);
    forall p | p in All(a) ensures Ready(t, p, [b.big]) { ReadyStays(s, t, p, [b.big], ps); }
  }

  lemma TurnedStays(s: State, t: State, a: Side, b: Side, i: nat, j: nat, n: nat, ps: set<Process>)
    requires Turned(s, a, b, i, j, n) && Only(s, t, ps) && a.helper !in ps && a.lead !in ps
    ensures Turned(t, a, b, i, j, n)
  {
    assert Kept(s, t, a.helper) && Kept(s, t, a.lead);
  }

  /** The messages of a side that propose `big`: its helper's, its lead's two, and the others'. */
  function Messages(i: nat, n: nat, others: seq<nat>): (ks: seq<nat>)
    ensures |ks| == |others| + 3
  {
    [n + 1, i + 1, n + 2] + others
  }

  lemma SideReady(m: set<Process>, views: iset<View>, t: State, a: Side, b: Side, i: nat, j: nat, n: nat)
    requires Cast(m, views, a, b) && Turned(t, a, b, i, j, n) && forall p | p in a.others :: Ready(t, p, [b.big])
    ensures forall p | p in All(a) :: Ready(t, p, [b.big])
    ensures Counting(t.workers[a.helper], [a.big], 1, a.helper) && Knows(t.workers[a.helper], [a.big])
  {
    HelperReady(m, views, t, a, b, i, j, n);
    LeadReady(m, views, t, a, b, i, j, n);
  }

  lemma SideIsDone(m: set<Process>, views: iset<View>, s: State, t: State, a: Side, b: Side,
                   i: nat, j: nat, n: nat, others: seq<nat>) returns (ks: seq<nat>)
    requires Cast(m, views, a, b) && Turned(s, a, b, i, j, n) && Only(s, t, a.others)
    requires OthersBegun(s, t, a.others, others, a.big) && forall p | p in a.others :: Ready(t, p, [b.big])
    ensures SideDone(m, t, a, b, ks)
  {
    TurnedStays(s, t, a, b, i, j, n, a.others);
    SideReady(m, views, t, a, b, i, j, n);
    ks := Messages(i, n, others);
    BatchOfSide(m, views, s, t, a, b, i, j, n, others);
    HelperHasNotHeard(s, t, a, b, i, j, n, others);
    QuorumSizeIsMajority(|m|);
  }

  lemma HelperHasNotHeard(s: State, t: State, a: Side, b: Side, i: nat, j: nat, n: nat, others: seq<nat>)
    requires Turned(s, a, b, i, j, n) && Turned(t, a, b, i, j, n) && OthersBegun(s, t, a.others, others, a.big)
    ensures forall k | k in Messages(i, n, others)[1..] :: k !in Log(t, a.helper)
  {
    var ks := Messages(i, n, others);
    forall k | k in ks[1..] ensures k !in Log(t, a.helper) {
      var x :| 1 <= x < |ks| && ks[x] == k;
      if x >= 3 { assert BegunAt(s, t, a.others, others[x - 3], a.big); }
    }
  }

  lemma BatchOfSide(m: set<Process>, views: iset<View>, s: State, t: State, a: Side, b: Side,
                    i: nat, j: nat, n: nat, others: seq<nat>)
    requires Cast(m, views, a, b) && Turned(s, a, b, i, j, n) && Turned(t, a, b, i, j, n)
    requires OthersBegun(s, t, a.others, others, a.big)
    ensures Batch(t, Messages(i, n, others), [a.big], 0, a.helper)
  {
    var ks := Messages(i, n, others);
    forall x | 3 <= x < |ks| ensures BegunAt(s, t, a.others, ks[x], a.big) {
      assert BegunAt(s, t, a.others, others[x - 3], a.big);
    }
    forall x, y | 0 <= x < y < |ks| ensures ks[x] != ks[y] {
      if y >= 3 { assert BegunAt(s, t, a.others, ks[y], a.big); }
      if x >= 3 { assert others[x - 3] != others[y - 3]; }
    }
  }

  /** The leading processes of both sides. */
  function Four(a: Side, b: Side): set<Process> {
    {a.helper, a.lead, b.helper, b.lead}
  }

  lemma Apart(m: set<Process>, views: iset<View>, a: Side, b: Side)
    requires Cast(m, views, a, b)
    ensures a.helper !in {b.helper, b.lead} && a.lead !in {b.helper, b.lead}
    ensures Cast(m, views, b, a)
  {
    assert {a.helper, a.lead} <= All(a) && {b.helper, b.lead} <= All(b);
  }

  lemma BothBegin(m: set<Process>, views: iset<View>, a: Side, b: Side) returns (t: State)
    requires Cast(m, views, a, b)
    ensures Reaches(Step(m, views), EMPTY, t) && Only(EMPTY, t, Four(a, b))
    ensures Begun(t, a, 0) && Begun(t, b, 2) && |t.sent| == 4
  {
    Apart(m, views, a, b);
    var s := BeginSide(m, views, EMPTY, a);
    assert Kept(EMPTY, s, b.helper) && Kept(EMPTY, s, b.lead);
    t := BeginSide(m, views, s, b);
    SideBegunStays(s, t, a, 0, {b.helper, b.lead});
    Then(m, views, EMPTY, {a.helper, a.lead}, s, {b.helper, b.lead}, t, Four(a, b));
  }

  /** Both sides repeat themselves. */
  lemma BothTurn(m: set<Process>, views: iset<View>, a: Side, b: Side, s: State) returns (t: State)
    requires Cast(m, views, a, b) && Begun(s, a, 0) && Begun(s, b, 2) && |s.sent| == 4
    ensures Reaches(Step(m, views), s, t) && Only(s, t, Four(a, b))
    ensures Turned(t, a, b, 0, 2, 4) && Turned(t, b, a, 2, 0, 7)
  {
    Apart(m, views, a, b);
    var u := Turn(m, views, s, a, b, 0, 2);
    assert |u.sent| == 7 && u.sent[0] == Plain(a.helper, a.small);
    SideBegunStays(s, u, b, 2, {a.helper, a.lead});
    t := Turn(m, views, u, b, a, 2, 0);
    TurnedStays(u, t, a, b, 0, 2, 4, {b.helper, b.lead});
    Then(m, views, s, {a.helper, a.lead}, u, {b.helper, b.lead}, t, Four(a, b));
  }

  lemma SideBegunStays(s: State, t: State, a: Side, i: nat, ps: set<Process>)
    requires Begun(s, a, i) && Only(s, t, ps) && a.helper !in ps && a.lead !in ps
    ensures Begun(t, a, i)
  {
    assert Kept(s, t, a.helper) && Kept(s, t, a.lead);
  }

  /** Everyone has begun, and both sides can converge. */
  lemma BothDone(m: set<Process>, views: iset<View>, a: Side, b: Side) returns (t: State, ka: seq<nat>, kb: seq<nat>)
    requires Cast(m, views, a, b)
    ensures Reaches(Step(m, views), EMPTY, t) && Silent(t) && SideDone(m, t, a, b, ka) && SideDone(m, t, b, a, kb)
  {
    var four := Four(a, b);
    var s0 := BothBegin(m, views, a, b);
    var s := BothTurn(m, views, a, b, s0);
    Then(m, views, EMPTY, four, s0, four, s, four);
    forall p | p in a.others + b.others ensures p !in s.workers && Log(s, p) == [] {
      assert p in All(a) + All(b) && p !in four;
      assert Kept(EMPTY, s, p);
    }
    var u, ks := BeginOthers(m, views, s, a.others, a.big);
    forall p | p in a.others ensures Ready(u, p, [b.big]) { FreshReady(u, p, a.big, b.big); }
    ka := SideIsDone(m, views, s, u, a, b, 0, 2, 4, ks);
    assert b.others <= All(b) && a.others <= All(a);
    forall p | p in b.others ensures p !in u.workers && Log(u, p) == [] { assert Kept(s, u, p); }
    TurnedStays(s, u, b, a, 2, 0, 7, a.others);
    var ks';
    t, ks' := BeginOthers(m, views, u, b.others, b.big);
    forall p | p in b.others ensures Ready(t, p, [a.big]) { FreshReady(t, p, b.big, a.big); }
    kb := SideIsDone(m, views, u, t, b, a, 2, 0, 7, ks');
    SideDoneStays(m, u, t, a, b, ka, b.others);
    Then(m, views, EMPTY, four, s, a.others, u, four + a.others);
    Then(m, views, EMPTY, four + a.others, u, b.others, t, four + a.others + b.others);
  }

  /** The helper of side a converges first; its side stays ready for the other one. */
  lemma HelperConverges(m: set<Process>, views: iset<View>, s: State, a: Side, b: Side, ks: seq<nat>) returns (t: State)
    requires Cast(m, views, a, b) && SideDone(m, s, a, b, ks)
    ensures Reaches(Step(m, views), s, t) && Only(s, t, {a.helper})
    ensures multiset(t.convs)[[a.big]] > multiset(s.convs)[[a.big]]
    ensures forall p | p in All(a) :: Ready(t, p, [b.big])
  {
    BatchRest(s, s, ks, [a.big], 0, a.helper);
    assert a.helper in All(a);
    assert Collecting(m, s, a.helper, ks[1..], [a.big], 1, a.helper);
    t := Collect(m, views, s, a.helper, ks[1..], [a.big], 1, a.helper, [b.big], 0, a.helper);
    assert a.big in AsSet([a.big]) && a.big !in AsSet([b.big]);
    AsideReady(s, t, a.helper, ks[1..], [a.big], 1, a.helper, [b.big]);
    forall p | p in All(a) ensures Ready(t, p, [b.big]) {
      if p != a.helper { ReadyStays(s, t, p, [b.big], {a.helper}); }
    }
  }

  lemma SideSize(m: set<Process>, views: iset<View>, a: Side)
    requires SideOk(m, views, a)
    ensures |All(a)| + 1 == QuorumSize(|m|)
  {
    assert |{a.helper, a.lead} + a.others| == |{a.helper, a.lead}| + |a.others|;
  }

  /** Both sequences have been converged to as often as a quorum has members. */
  lemma BothConverge(m: set<Process>, views: iset<View>, a: Side, b: Side) returns (t: State)
    requires Cast(m, views, a, b)
    ensures Reaches(Step(m, views), EMPTY, t) && Silent(t) && a.helper in t.workers
    ensures multiset(t.convs)[[a.big]] >= QuorumSize(|m|) && multiset(t.convs)[[b.big]] >= QuorumSize(|m|)
  {
    Apart(m, views, a, b);
    SideSize(m, views, a);
    SideSize(m, views, b);
    var s, ka, kb := BothDone(m, views, a, b);
    var s1 := HelperConverges(m, views, s, a, b, ka);
    assert a.helper in All(a) && b.helper in All(b);
    SideDoneStays(m, s, s1, b, a, kb, {a.helper});
    var s2 := HelperConverges(m, views, s1, b, a, kb);
    t := OthersConverge(m, views, a, b, s, s2, ka, kb, s1);
    Then(m, views, s, {a.helper}, s1, {b.helper}, s2, All(a) + All(b));
    Then(m, views, s, All(a) + All(b), s2, All(a) + All(b), t, All(a) + All(b));
    Concat(Step(m, views), EMPTY, s, t);
    MoreOf(s1.convs, s2.convs, [a.big]);
  }

  lemma OthersConverge(m: set<Process>, views: iset<View>, a: Side, b: Side, s0: State, s: State,
                       ka: seq<nat>, kb: seq<nat>, s1: State) returns (t: State)
    requires Cast(m, views, a, b) && SideDone(m, s0, a, b, ka) && SideDone(m, s0, b, a, kb)
    requires Only(s0, s1, {a.helper}) && Only(s1, s, {b.helper})
    requires (forall p | p in All(a) :: Ready(s1, p, [b.big])) && (forall p | p in All(b) :: Ready(s, p, [a.big]))
    ensures Reaches(Step(m, views), s, t) && Only(s, t, All(a) + All(b))
    ensures multiset(t.convs)[[a.big]] >= multiset(s.convs)[[a.big]] + |All(b)|
    ensures multiset(t.convs)[[b.big]] >= multiset(s.convs)[[b.big]] + |All(a)|
  {
    assert a.helper in All(a) && b.helper in All(b);
    BatchStays(s0, s, ka, [a.big], 0, a.helper);
    var u := CollectAll(m, views, s, All(b), ka, [a.big], a.helper);
    BatchStays(s0, u, kb, [b.big], 0, b.helper);
    forall p | p in All(a) ensures Ready(u, p, [b.big]) {
      ReadyStays(s1, s, p, [b.big], {b.helper});
      ReadyStays(s, u, p, [b.big], All(b));
    }
    t := CollectAll(m, views, u, All(a), kb, [b.big], b.helper);
    Then(m, views, s, All(b), u, All(a), t, All(a) + All(b));
    MoreOf(s.convs, u.convs, [b.big]);
    MoreOf(u.convs, t.convs, [a.big]);
  }

  // ----- generation -----

  /** Worker p has handled the first i SeqConvs. */
  ghost predicate Delivered(m: set<Process>, s: State, t: State, p: Process, i: nat) {
    && i <= |s.convs| && t.convs == s.convs && p in t.workers && t.workers[p].convs == Replay(s.convs[..i])
    && (forall j | i <= j :: (p, j) !in t.gotConv)
    && forall c | c in s.convs && multiset(s.convs[..i])[c] >= QuorumSize(|m|) :: c in t.generated
  }

  lemma DeliverNext(m: set<Process>, views: iset<View>, s: State, t: State, p: Process, i: nat) returns (u: State)
    requires Delivered(m, s, t, p, i) && i < |s.convs|
    ensures Reaches(Step(m, views), t, u) && Delivered(m, s, u, p, i + 1)
  {
    var e := DeliverConv(p, i);
    u := Next(m, t, e);
    Once(Step(m, views), t, e, u);
    CountAtQuorum(s.convs, i, QuorumSize(|m|));
    ReplayNext(s.convs, i, QuorumSize(|m|));
    assert s.convs[..i + 1] == s.convs[..i] + [s.convs[i]];
  }

  lemma ReplayNext(xs: seq<ViewSeq>, i: nat, quorumSize: nat)
    requires i < |xs|
    ensures Replay(xs[..i + 1]) == Count(Replay(xs[..i]), xs[i], quorumSize).0
  {
    assert xs[..i + 1][..i] == xs[..i];
  }

  lemma {:induction false} DeliverAll(m: set<Process>, views: iset<View>, s: State, p: Process, i: nat)
    returns (t: State)
    requires Silent(s) && p in s.workers && i <= |s.convs|
    ensures Reaches(Step(m, views), s, t) && Delivered(m, s, t, p, i)
  {
    if i == 0 {
      t := s;
      Stay(Step(m, views), s);
      QuorumSizeIsMajority(|m|);
    } else {
      var u := DeliverAll(m, views, s, p, i - 1);
      t := DeliverNext(m, views, s, u, p, i - 1);
      Concat(Step(m, views), s, u, t);
    }
  }

  /** Both sequences are generated. */
  lemma BothGenerated(m: set<Process>, views: iset<View>, a: Side, b: Side) returns (t: State)
    requires Cast(m, views, a, b)
    ensures Reaches(Step(m, views), EMPTY, t) && [a.big] in t.generated && [b.big] in t.generated
  {
    var s := BothConverge(m, views, a, b);
    t := DeliverAll(m, views, s, a.helper, |s.convs|);
    assert s.convs[..|s.convs|] == s.convs;
    QuorumSizeIsMajority(|m|);
    Concat(Step(m, views), EMPTY, s, t);
  }

  // ----- a cast for every view with four or more members -----

  lemma {:induction false} LongerThanAll(v: View) returns (n: nat)
    ensures forall u | u in v :: |u.process.addr| < n
    decreases |v|
  {
    n := 0;
    if v != {} {
      var u :| u in v;
      var k := LongerThanAll(v - {u});
      n := if k > |u.process.addr| then k else |u.process.addr| + 1;
    }
  }

  function NewJoin(n: nat): Update {
    Update(Join, Process(seq(n, i => 'x')))
  }

  /** Four views above any base: two conflicting small ones inside two conflicting big ones. */
  lemma FourViews(base: View) returns (a: View, b: View, aa: View, bb: View)
    ensures base < a && base < b && a < aa && a < bb && b < aa && b < bb
    ensures Conflict(a, b) && Conflict(aa, bb)
  {
    var n := LongerThanAll(base);
    var u1, u2, u3, u4 := NewJoin(n), NewJoin(n + 1), NewJoin(n + 2), NewJoin(n + 3);
    assert |u1.process.addr| == n && |u2.process.addr| == n + 1;
    assert |u3.process.addr| == n + 2 && |u4.process.addr| == n + 3;
    a, b := base + {u1}, base + {u2};
    aa, bb := base + {u1, u2, u3}, base + {u1, u2, u4};
    assert u2 in aa && u2 !in a && u1 in aa && u1 !in b && u3 !in bb && u4 !in aa;
  }

  lemma TwoOf(ps: set<Process>) returns (x: Process, y: Process)
    requires |ps| >= 2
    ensures x in ps && y in ps && x != y && |ps - {x, y}| == |ps| - 2
  {
    x :| x in ps;
    assert |ps - {x}| == |ps| - 1;
    y :| y in ps - {x};
    assert ps - {x, y} == ps - {x} - {y};
  }

  /** The views that may be proposed for the associated view `base`. */
  ghost function Extending(base: View): iset<View> {
    iset v: View | base <= v
  }

  lemma CastExists(m: set<Process>, base: View) returns (a: Side, b: Side)
    requires |m| >= 4
    ensures Cast(m, Extending(base), a, b)
  {
    var k := QuorumSize(|m|) - 1;
    QuorumSizeIsMajority(|m|);
    var left := Part(m, k);
    assert |m - left| == |m| - k;
    var right := Part(m - left, k);
    var h, l := TwoOf(left);
    var h', l' := TwoOf(right);
    var va, vb, vaa, vbb := FourViews(base);
    a, b := Side(h, l, left - {h, l}, va, vaa), Side(h', l', right - {h', l'}, vb, vbb);
    assert All(a) <= left && All(b) <= right;
  }

  // ----- the exact condition -----

  ghost predicate StartsIn(es: seq<Event>, views: iset<View>) {
    forall i | 0 <= i < |es| :: From(es[i], views)
  }

  ghost predicate Tops(c: ViewSeq, c': ViewSeq) {
    Comparable(MostUpdated(c), MostUpdated(c'))
  }

  /** In every run whose initial views extend the associated view, converged sequences agree. */
  ghost predicate ConvergedAgree(m: set<Process>, base: View) {
    forall tr: seq<State>, es: seq<Event>, i: nat, c: ViewSeq, c': ViewSeq ::
      Run(m, tr, es) && StartsIn(es, Extending(base)) && i < |tr| && c in tr[i].convs && c' in tr[i].convs ==>
        Tops(c, c')
  }

  ghost predicate GeneratedAgree(m: set<Process>, base: View) {
    forall tr: seq<State>, es: seq<Event>, i: nat, c: ViewSeq, c': ViewSeq ::
      Run(m, tr, es) && StartsIn(es, Extending(base)) && i < |tr| && c in tr[i].generated && c' in tr[i].generated ==>
        Tops(c, c')
  }

  lemma PathIsRun(m: set<Process>, views: iset<View>, tr: seq<State>, es: seq<Event>)
    requires Path(Step(m, views), tr, es) && tr[0] == EMPTY
    ensures Run(m, tr, es) && StartsIn(es, views)
  {
    forall i | 0 <= i < |es|
      ensures Enabled(m, tr[i], es[i]) && tr[i + 1] == Next(m, tr[i], es[i]) && From(es[i], views)
    {
      assert Step(m, views)(tr[i], es[i], tr[i + 1]);
    }
  }

  /** With four or more members two incomparable sequences can be generated. */
  lemma DivergenceHappens(m: set<Process>, base: View) returns (tr: seq<State>, es: seq<Event>, c: ViewSeq, c': ViewSeq)
    requires |m| >= 4
    ensures Run(m, tr, es) && StartsIn(es, Extending(base))
    ensures {c, c'} <= AsSet(tr[|es|].generated) && {c, c'} <= AsSet(tr[|es|].convs) && !Tops(c, c')
  {
    var a, b := CastExists(m, base);
    var t := BothGenerated(m, Extending(base), a, b);
    tr, es := PathOf(Step(m, Extending(base)), EMPTY, t);
    PathIsRun(m, Extending(base), tr, es);
    c, c' := [a.big], [b.big];
    MostOfOne(a.big);
    MostOfOne(b.big);
    assert ProperStart(es);
    RunInv(m, tr, es, |es|);
  }

  /** The condition is the size of the view, whatever the associated view is. */
  lemma AgreeIffAtMostThree(m: set<Process>, base: View)
    ensures ConvergedAgree(m, base) <==> |m| <= 3
    ensures GeneratedAgree(m, base) <==> |m| <= 3
  {
    if |m| <= 3 {
      forall tr: seq<State>, es: seq<Event>, i: nat, c: ViewSeq, c': ViewSeq
        | Run(m, tr, es) && StartsIn(es, Extending(base)) && i < |tr|
        ensures c in tr[i].convs && c' in tr[i].convs ==> Tops(c, c')
        ensures c in tr[i].generated && c' in tr[i].generated ==> Tops(c, c')
      {
        SmallViewsAgree(m, base, tr, es, i, c, c');
      }
    } else {
      var tr, es, c, c' := DivergenceHappens(m, base);
      assert c in AsSet(tr[|es|].generated) && c' in AsSet(tr[|es|].generated);
      assert c in AsSet(tr[|es|].convs) && c' in AsSet(tr[|es|].convs);
    }
  }

  lemma SmallViewsAgree(m: set<Process>, base: View, tr: seq<State>, es: seq<Event>, i: nat, c: ViewSeq, c': ViewSeq)
    requires |m| <= 3 && Run(m, tr, es) && StartsIn(es, Extending(base)) && i < |tr|
    ensures c in tr[i].convs && c' in tr[i].convs ==> Tops(c, c')
    ensures c in tr[i].generated && c' in tr[i].generated ==> Tops(c, c')
  {
    assert ProperStart(es);
    if c in tr[i].convs && c' in tr[i].convs { ConvergedAreComparable(m, tr, es, i, c, c'); }
    if c in tr[i].generated && c' in tr[i].generated { GeneratedAreComparable(m, tr, es, i, c, c'); }
  }
}
