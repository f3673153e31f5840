/**
 Comparable initial proposals: no run takes the conflict branch, any two converged sequences are
 nested as sets, and the number of proposals ever broadcast is at most the number of workers
 times the number of distinct initial views. Nothing is assumed about repeated messages: each
 worker's proposal grows strictly.
 */
module ViewGeneratorTermination {
  import opened Views
  import opened ViewSeqs
  import opened QuorumCounters
  import opened ViewGenerator
  import opened ViewGeneratorChains
  import opened ViewGeneratorConvergence

  ghost predicate AllComparable(u: set<View>) {
    forall v, v' :: v in u && v' in u ==> Comparable(v, v')
  }

  /** The distinct initial views of a run. */
  ghost function InitialViews(es: seq<Event>): set<View> {
    set i, v | 0 <= i < |es| && es[i].Begin? && v in es[i].initial :: v
  }

  function Indices(sent: seq<Msg>, senders: set<Process>): set<nat> {
    set i | 0 <= i < |sent| && sent[i].sender in senders
  }

  /** A worker proposes views of u only, has sent no more proposals than it proposes views, and
      contains all it has proposed. */
  ghost predicate WorkerGrows(s: State, u: set<View>, p: Process)
    requires p in s.workers
  {
    AsSet(s.workers[p].proposed) <= u && |Indices(s.sent, {p})| <= |AsSet(s.workers[p].proposed)|
  }

  ghost predicate SentGrows(s: State, u: set<View>, i: nat)
    requires i < |s.sent|
  {
    && AsSet(s.sent[i].proposed) <= u && s.sent[i].sender in s.workers
    && AsSet(s.sent[i].proposed) <= AsSet(s.workers[s.sent[i].sender].proposed)
  }

  ghost predicate StrictlyGrows(s: State, i: nat, j: nat)
    requires i < |s.sent| && j < |s.sent|
  {
    i < j && s.sent[i].sender == s.sent[j].sender ==> AsSet(s.sent[i].proposed) < AsSet(s.sent[j].proposed)
  }

  ghost predicate Grows(s: State, u: set<View>) {
    && (forall p {:trigger WorkerGrows(s, u, p)} | p in s.workers :: WorkerGrows(s, u, p))
    && (forall i: nat {:trigger SentGrows(s, u, i)} | i < |s.sent| :: SentGrows(s, u, i))
    && (forall i: nat, j: nat {:trigger StrictlyGrows(s, i, j)} | i < |s.sent| && j < |s.sent| ::
          StrictlyGrows(s, i, j))
  }

  ghost predicate Within(e: Event, u: set<View>) {
    e.Begin? ==> AsSet(e.initial) <= u
  }

  // ----- one step -----

  lemma ElementsWithin(s: ViewSeq, u: set<View>, v: View)
    requires AsSet(s) <= u && v in s
    ensures v in u
  {
    assert v in AsSet(s);
  }

  lemma NoConflict(s: State, u: set<View>, p: Process, k: nat)
    requires Grows(s, u) && AllComparable(u) && p in s.workers && k < |s.sent|
    ensures !HasConflict(s.workers[p].proposed, s.sent[k].proposed)
  {
    assert WorkerGrows(s, u, p) && SentGrows(s, u, k);
    forall v, v' | v in s.sent[k].proposed && v' in s.workers[p].proposed
      ensures !Conflict(v, v')
    {
      ElementsWithin(s.sent[k].proposed, u, v);
      ElementsWithin(s.workers[p].proposed, u, v');
    }
  }

  lemma AppendSet(a: ViewSeq, b: ViewSeq)
    ensures AsSet(Append(a, b)) == AsSet(a) + AsSet(b)
  {
  }

  /** What worker e.p does: either it sends nothing and keeps its proposal, or it sends a strictly
      larger one, within u, and that becomes its proposal. */
  lemma OutputGrows(m: set<Process>, s: State, e: Event, u: set<View>)
    requires Grows(s, u) && AllComparable(u) && Enabled(m, s, e) && !e.DeliverConv? && Within(e, u)
    ensures var o, w := Output(m, s, e), ViewGeneratorChains.Before(s, e.p);
            && AsSet(w.proposed) <= AsSet(o.worker.proposed) <= u
            && |o.sends| <= 1 && (forall x | x in o.sends :: x.sender == e.p)
            && (o.sends != [] ==>
                  o.sends[0].proposed == o.worker.proposed && AsSet(w.proposed) < AsSet(o.worker.proposed))
  {
    if e.Begin? {
      if e.initial != [] { assert e.initial[0] in AsSet(e.initial); }
    } else {
      var w, msg := s.workers[e.p], s.sent[e.k];
      assert WorkerGrows(s, u, e.p) && SentGrows(s, u, e.k);
      NoConflict(s, u, e.p, e.k);
      if HasChanges(w.proposed, msg.proposed) {
        AppendSet(w.proposed, msg.proposed);
        var v :| v in msg.proposed && v !in w.proposed;
        assert v in AsSet(msg.proposed) && v !in AsSet(w.proposed);
      }
    }
  }

  lemma SentSplits(m: set<Process>, s: State, e: Event)
    requires Enabled(m, s, e)
    ensures e.DeliverConv? ==> Next(m, s, e).sent == s.sent && Next(m, s, e).workers.Keys == s.workers.Keys
    ensures !e.DeliverConv? ==> Next(m, s, e).sent == s.sent + Output(m, s, e).sends
                                && Next(m, s, e).workers == s.workers[e.p := Output(m, s, e).worker]
  {
  }

  lemma IndicesGrow(sent: seq<Msg>, more: seq<Msg>, p: Process)
    requires |more| <= 1
    ensures |Indices(sent + more, {p})| == |Indices(sent, {p})| + (if more != [] && more[0].sender == p then 1 else 0)
  {
    var all := sent + more;
    if more != [] && more[0].sender == p {
      assert Indices(all, {p}) == Indices(sent, {p}) + {|sent|};
    } else {
      assert Indices(all, {p}) == Indices(sent, {p});
    }
  }

  lemma WorkersKept(m: set<Process>, s: State, e: Event, u: set<View>, p: Process)
    requires Grows(s, u) && AllComparable(u) && Enabled(m, s, e) && Within(e, u)
    requires p in Next(m, s, e).workers
    ensures WorkerGrows(Next(m, s, e), u, p)
  {
    var s' := Next(m, s, e);
    if p in s.workers { assert WorkerGrows(s, u, p); }
    if !e.DeliverConv? {
      SentSplits(m, s, e);
      OutputGrows(m, s, e, u);
      var o := Output(m, s, e);
      IndicesGrow(s.sent, o.sends, p);
      if p == e.p {
        var w := ViewGeneratorChains.Before(s, p);
        SubsetCardinality(AsSet(w.proposed), AsSet(o.worker.proposed));
        if p !in s.workers { NothingSentBefore(s, u, p); }
      }
    }
  }

  lemma NothingSentBefore(s: State, u: set<View>, p: Process)
    requires Grows(s, u) && p !in s.workers
    ensures Indices(s.sent, {p}) == {}
  {
    forall i: nat | i < |s.sent| ensures s.sent[i].sender != p { assert SentGrows(s, u, i); }
  }

  lemma SentKept(m: set<Process>, s: State, e: Event, u: set<View>, i: nat)
    requires Grows(s, u) && AllComparable(u) && Enabled(m, s, e) && Within(e, u) && i < |Next(m, s, e).sent|
    ensures SentGrows(Next(m, s, e), u, i)
  {
    SentSplits(m, s, e);
    if i < |s.sent| { assert SentGrows(s, u, i); }
    if !e.DeliverConv? { OutputGrows(m, s, e, u); }
  }

  lemma StrictKept(m: set<Process>, s: State, e: Event, u: set<View>, i: nat, j: nat)
    requires Grows(s, u) && AllComparable(u) && Enabled(m, s, e) && Within(e, u)
    requires i < |Next(m, s, e).sent| && j < |Next(m, s, e).sent|
    ensures StrictlyGrows(Next(m, s, e), i, j)
  {
    SentSplits(m, s, e);
    if i < j {
      if j < |s.sent| {
        assert StrictlyGrows(s, i, j);
      } else {
        OutputGrows(m, s, e, u);
        assert i < |s.sent|;
        assert SentGrows(s, u, i);
      }
    }
  }

  lemma StepGrows(m: set<Process>, s: State, e: Event, u: set<View>)
    requires Grows(s, u) && AllComparable(u) && Enabled(m, s, e) && Within(e, u)
    ensures Grows(Next(m, s, e), u)
  {
    var s' := Next(m, s, e);
    forall p | p in s'.workers ensures WorkerGrows(s', u, p) { WorkersKept(m, s, e, u, p); }
    forall i: nat | i < |s'.sent| ensures SentGrows(s', u, i) { SentKept(m, s, e, u, i); }
    forall i: nat, j: nat | i < |s'.sent| && j < |s'.sent| ensures StrictlyGrows(s', i, j) {
      StrictKept(m, s, e, u, i, j);
    }
  }

  lemma {:induction false} RunGrows(m: set<Process>, tr: seq<State>, es: seq<Event>, i: nat)
    requires Run(m, tr, es) && i < |tr| && AllComparable(InitialViews(es))
    ensures Grows(tr[i], InitialViews(es))
  {
    if i > 0 {
      RunGrows(m, tr, es, i - 1);
      assert Within(es[i - 1], InitialViews(es));
      StepGrows(m, tr[i - 1], es[i - 1], InitialViews(es));
    }
  }

  // ----- the theorems -----

  /** No run takes the conflict branch. */
  lemma ComparableMeansNoConflict(m: set<Process>, tr: seq<State>, es: seq<Event>, i: nat)
    requires Run(m, tr, es) && AllComparable(InitialViews(es)) && i < |es| && es[i].Deliver?
    ensures !HasConflict(tr[i].workers[es[i].p].proposed, tr[i].sent[es[i].k].proposed)
  {
    RunGrows(m, tr, es, i);
    NoConflict(tr[i], InitialViews(es), es[i].p, es[i].k);
  }

  /** No worker repeats itself. */
  lemma ComparableMeansNoRepeats(m: set<Process>, tr: seq<State>, es: seq<Event>, i: nat)
    requires Run(m, tr, es) && AllComparable(InitialViews(es)) && i < |tr|
    ensures NoRepeats(tr[i].sent)
  {
    RunGrows(m, tr, es, i);
    var s := tr[i];
    forall a, b | 0 <= a < b < |s.sent| && s.sent[a].sender == s.sent[b].sender
      ensures Content(s.sent[a]) != Content(s.sent[b])
    {
      assert StrictlyGrows(s, a, b);
    }
  }

  lemma ComparableMeansProper(es: seq<Event>)
    requires AllComparable(InitialViews(es)) && forall i | 0 <= i < |es| && es[i].Begin? :: Distinct(es[i].initial)
    ensures ProperStart(es)
  {
    forall i | 0 <= i < |es| && es[i].Begin?
      ensures ChainSeq(es[i].initial)
    {
      assert forall v | v in es[i].initial :: v in InitialViews(es);
    }
  }

  /** Any two converged sequences, hence any two generated ones, are nested as sets. */
  lemma ConvergedAreNested(m: set<Process>, tr: seq<State>, es: seq<Event>, i: nat, c: ViewSeq, c': ViewSeq)
    requires Run(m, tr, es) && AllComparable(InitialViews(es)) && i < |tr|
    requires forall j | 0 <= j < |es| && es[j].Begin? :: Distinct(es[j].initial)
    requires (c in tr[i].convs || c in tr[i].generated) && (c' in tr[i].convs || c' in tr[i].generated)
    ensures AsSet(c) <= AsSet(c') || AsSet(c') <= AsSet(c)
  {
    ComparableMeansProper(es);
    ComparableMeansNoRepeats(m, tr, es, i);
    RunInv(m, tr, es, i);
    RunConverged(m, tr, es, i);
    RunGrows(m, tr, es, i);
    var s := tr[i];
    var a, b := SharedSender(m, s, c, c');
    assert StrictlyGrows(s, a, b) && StrictlyGrows(s, b, a);
  }

  lemma {:induction false} IndicesBound(sent: seq<Msg>, senders: set<Process>, bound: nat)
    requires forall p | p in senders :: |Indices(sent, {p})| <= bound
    ensures |Indices(sent, senders)| <= |senders| * bound
    decreases |senders|
  {
    if senders == {} {
      assert Indices(sent, senders) == {};
    } else {
      var p :| p in senders;
      var rest := senders - {p};
      IndicesBound(sent, rest, bound);
      IndicesSplit(sent, rest, p);
      assert senders == rest + {p};
      OneMore(|rest|, bound);
    }
  }

  lemma IndicesSplit(sent: seq<Msg>, rest: set<Process>, p: Process)
    ensures |Indices(sent, rest + {p})| <= |Indices(sent, rest)| + |Indices(sent, {p})|
  {
    assert Indices(sent, rest + {p}) == Indices(sent, rest) + Indices(sent, {p});
  }

  lemma OneMore(n: nat, bound: nat)
    ensures (n + 1) * bound == n * bound + bound
  {
  }

  lemma {:induction false} IndicesOfAll(sent: seq<Msg>, senders: set<Process>)
    requires forall i | 0 <= i < |sent| :: sent[i].sender in senders
    ensures |Indices(sent, senders)| == |sent|
  {
    if sent == [] {
      assert Indices(sent, senders) == {};
    } else {
      var n := |sent| - 1;
      IndicesOfAll(sent[..n], senders);
      assert Indices(sent, senders) == Indices(sent[..n], senders) + {n};
    }
  }

  /** The number of proposals ever broadcast is bounded: workers times distinct initial views. */
  lemma BroadcastsAreBounded(m: set<Process>, tr: seq<State>, es: seq<Event>, i: nat)
    requires Run(m, tr, es) && AllComparable(InitialViews(es)) && i < |tr|
    ensures |tr[i].sent| <= |tr[i].workers.Keys| * |InitialViews(es)|
  {
    RunGrows(m, tr, es, i);
    var s, u := tr[i], InitialViews(es);
    forall p | p in s.workers.Keys
      ensures |Indices(s.sent, {p})| <= |u|
    {
      assert WorkerGrows(s, u, p);
      SubsetCardinality(AsSet(s.workers[p].proposed), u);
    }
    IndicesBound(s.sent, s.workers.Keys, |u|);
    forall j | 0 <= j < |s.sent| ensures s.sent[j].sender in s.workers.Keys { assert SentGrows(s, u, j); }
    IndicesOfAll(s.sent, s.workers.Keys);
  }

  // ----- comparability is exactly what the conflict branch depends on -----

  ghost predicate StartsFrom(es: seq<Event>, init: map<Process, ViewSeq>) {
    forall i | 0 <= i < |es| && es[i].Begin? :: es[i].p in init && es[i].initial == init[es[i].p]
  }

  ghost predicate Conflicts(tr: seq<State>, es: seq<Event>, i: nat)
    requires |tr| == |es| + 1 && i < |es|
  {
    && es[i].Deliver? && es[i].p in tr[i].workers && es[i].k < |tr[i].sent|
    && HasConflict(tr[i].workers[es[i].p].proposed, tr[i].sent[es[i].k].proposed)
  }

  ghost predicate SomeRunConflicts(m: set<Process>, init: map<Process, ViewSeq>) {
    exists tr: seq<State>, es: seq<Event>, i: nat ::
      Run(m, tr, es) && StartsFrom(es, init) && i < |es| && Conflicts(tr, es, i)
  }

  ghost predicate InitsComparable(init: map<Process, ViewSeq>) {
    forall p, q, v, v' :: p in init && q in init && v in init[p] && v' in init[q] ==> Comparable(v, v')
  }

  lemma BeginEffect(m: set<Process>, s: State, p: Process, initial: ViewSeq)
    requires Enabled(m, s, Begin(p, initial)) && initial != [] && Log(s, p) == []
    ensures var s' := Next(m, s, Begin(p, initial));
            && s'.sent == s.sent + [Msg(p, initial, [])] && s'.workers.Keys == s.workers.Keys + {p}
            && s'.workers[p].proposed == initial && Log(s', p) == [|s.sent|]
            && forall q | q != p :: Log(s', q) == Log(s, q)
  {
    var own := Msg(p, initial, []);
    assert OnBegin(p, initial, QuorumSize(|m|)).worker.proposed == initial;
  }

  lemma ThreeSteps(m: set<Process>, e0: Event, e1: Event, e2: Event, s1: State, s2: State)
    requires Enabled(m, EMPTY, e0) && s1 == Next(m, EMPTY, e0)
    requires Enabled(m, s1, e1) && s2 == Next(m, s1, e1) && Enabled(m, s2, e2)
    ensures Run(m, [EMPTY, s1, s2, Next(m, s2, e2)], [e0, e1, e2])
  {
  }

  lemma ConflictingInitsConflict(m: set<Process>, init: map<Process, ViewSeq>, p: Process, q: Process,
                                 v: View, v': View)
    requires p in init && q in init && p in m && q in m && p != q
    requires v in init[p] && v' in init[q] && Conflict(v, v') && Proper(init[q])
    ensures SomeRunConflicts(m, init)
  {
    var e0, e1, e2 := Begin(p, init[p]), Begin(q, init[q]), Deliver(q, 0);
    var s1 := Next(m, EMPTY, e0);
    BeginEffect(m, EMPTY, p, init[p]);
    var s2 := Next(m, s1, e1);
    BeginEffect(m, s1, q, init[q]);
    ConflictSeen(init[q], init[p], v, v');
    ThreeSteps(m, e0, e1, e2, s1, s2);
    ConflictAtThird(m, init, e0, e1, e2, s1, s2);
  }

  lemma ConflictAtThird(m: set<Process>, init: map<Process, ViewSeq>, e0: Event, e1: Event, e2: Event,
                        s1: State, s2: State)
    requires e0.Begin? && e0.p in init && e0.initial == init[e0.p]
    requires e1.Begin? && e1.p in init && e1.initial == init[e1.p]
    requires e2.Deliver? && Enabled(m, s2, e2) && Run(m, [EMPTY, s1, s2, Next(m, s2, e2)], [e0, e1, e2])
    requires HasConflict(s2.workers[e2.p].proposed, s2.sent[e2.k].proposed)
    ensures SomeRunConflicts(m, init)
  {
    var tr, es := [EMPTY, s1, s2, Next(m, s2, e2)], [e0, e1, e2];
    assert tr[2] == s2 && es[2] == e2;
    assert Conflicts(tr, es, 2);
    assert StartsFrom(es, init);
  }

  lemma ConflictSeen(mine: ViewSeq, theirs: ViewSeq, v: View, v': View)
    requires v in theirs && v' in mine && Conflict(v, v') && Proper(mine)
    ensures HasConflict(mine, theirs)
  {
    assert v !in mine;
  }

  /** With duplicate-free chains as initial sequences, some run takes the conflict branch if and
      only if two initial views are incomparable. */
  lemma ConflictIffIncomparable(m: set<Process>, init: map<Process, ViewSeq>)
    requires init.Keys == m && forall p | p in init :: Proper(init[p])
    ensures SomeRunConflicts(m, init) <==> !InitsComparable(init)
  {
    if !InitsComparable(init) {
      var p, q, v, v' :| p in init && q in init && v in init[p] && v' in init[q] && !Comparable(v, v');
      assert p != q;
      ConflictingInitsConflict(m, init, p, q, v, v');
    } else {
      forall tr: seq<State>, es: seq<Event>, i: nat | Run(m, tr, es) && StartsFrom(es, init) && i < |es|
        ensures !Conflicts(tr, es, i)
      {
        assert AllComparable(InitialViews(es));
        if es[i].Deliver? { ComparableMeansNoConflict(m, tr, es, i); }
      }
    }
  }
}
