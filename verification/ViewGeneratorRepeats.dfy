/**
 Convergence depends on the size of the view. A worker that resolves a conflict can send a
 proposal it has sent before, and the counter compares senders only with the first message of a
 content, so it counts the repetition. From four members on, two incomparable sequences can both
 converge, and both be generated; with three or fewer they never can.
 */
module ViewGeneratorRepeats {
  import opened Views
  import opened ViewSeqs
  import opened QuorumCounters
  import opened ViewGenerator
  import opened ViewGeneratorChains
  import opened ViewGeneratorConvergence
  import opened Runs

  // ----- what one worker does -----

  /** The message that proposes v alone, with nothing converged before. */
  function Plain(p: Process, v: View): Msg {
    Msg(p, [v], [])
  }

  function One(msg: Msg): Tally<Msg> {
    Tally(msg, 1)
  }

  /** A worker that has proposed v and heard nothing. */
  function Fresh(p: Process, v: View): Worker {
    Worker([v], [], [One(Plain(p, v))], [])
  }

  lemma FreshCount(w: Worker, msg: Msg, quorumSize: nat)
    requires quorumSize != 1 && forall t | t in w.msgs :: !SameButDifferentSender(t.first, msg)
    ensures CountViewSeq(w, msg, quorumSize) == Out(w.(msgs := w.msgs + [One(msg)]), [], [])
  {
    assert FirstMatch(w.msgs, msg) == |w.msgs|;
  }

  lemma BeginsFresh(p: Process, v: View, quorumSize: nat)
    requires quorumSize != 1
    ensures OnBegin(p, [v], quorumSize) == Out(Fresh(p, v), [Plain(p, v)], [])
  {
    FreshCount(IDLE, Plain(p, v), quorumSize);
    assert [] + [One(Plain(p, v))] == [One(Plain(p, v))];
  }

  /** The lead, which proposed [big], hears of a smaller view and adds it. */
  lemma LeadAdds(lead: Process, other: Process, small: View, big: View, quorumSize: nat)
    requires lead != other && quorumSize >= 2 && small < big
    ensures OnMsg(lead, Fresh(lead, big), Plain(other, small), quorumSize)
            == Out(Added(lead, other, small, big), [Msg(lead, [big, small], [])], [])
  {
    var w, msg, own := Fresh(lead, big), Plain(other, small), Msg(lead, [big, small], []);
    assert small in [small] && HasChanges([big], [small]) && !HasConflict([big], [small]);
    AppendNew([big], small);
    assert [big] + [small] == [big, small];
    FreshCount(w, own, quorumSize);
    var w' := w.(msgs := w.msgs + [One(own)], proposed := [big, small]);
    assert big in [big] && big !in [small];
    FreshCount(w', msg, quorumSize);
  }

  function Added(lead: Process, other: Process, small: View, big: View): Worker {
    Worker([big, small], [],
           [One(Plain(lead, big))] + [One(Msg(lead, [big, small], []))] + [One(Plain(other, small))], [])
  }

  lemma ConflictToUnion(w: Worker, msg: Msg, a: View, b: View)
    requires w.converged == [] && msg.converged == [] && HasConflict(w.proposed, msg.proposed)
    requires MostUpdated(w.proposed) == a && MostUpdated(msg.proposed) == b
    ensures Merge(w, msg) == ([a + b], [])
  {
    AppendNew([], a + b);
    assert [] + [a + b] == [a + b];
  }

  lemma TopOfTwo(small: View, big: View)
    requires small < big
    ensures MostUpdated([big, small]) == big
  {
    MostUpdatedIsMaximum([big, small]);
    assert big in [big, small];
  }

  /** The helper, which proposed a view that conflicts with the one the lead added, takes the lead's. */
  lemma HelperJoins(helper: Process, lead: Process, small: View, other: View, big: View, quorumSize: nat)
    requires helper != lead && quorumSize >= 2 && small < big && other < big && Conflict(small, other)
    ensures OnMsg(helper, Fresh(helper, small), Msg(lead, [big, other], []), quorumSize)
            == Out(Joined(helper, lead, small, other, big), [Plain(helper, big)], [])
  {
    var w, msg, own := Fresh(helper, small), Msg(lead, [big, other], []), Plain(helper, big);
    assert other in [big, other] && other !in [small] && small in [small];
    assert HasConflict(w.proposed, msg.proposed) && HasChanges(w.proposed, msg.proposed);
    MostOfOne(small);
    TopOfTwo(other, big);
    ConflictToUnion(w, msg, small, big);
    assert small + big == big;
    assert small in [small] && small !in [big];
    FreshCount(w, own, quorumSize);
    FreshCount(w.(msgs := w.msgs + [One(own)], proposed := [big]), msg, quorumSize);
  }

  function Joined(helper: Process, lead: Process, small: View, other: View, big: View): Worker {
    Worker([big], [], [One(Plain(helper, small))] + [One(Plain(helper, big))] + [One(Msg(lead, [big, other], []))], [])
  }

  /** The lead hears of the helper's first view, which conflicts with the one it added, and so sends
      its first proposal again. */
  lemma LeadRepeats(lead: Process, other: Process, helper: Process, small: View, small': View, big: View,
                    quorumSize: nat)
    requires helper != lead && lead != other && quorumSize >= 2
    requires small < big && small' < big && Conflict(small, small')
    ensures OnMsg(lead, Added(lead, other, small', big), Plain(helper, small), quorumSize)
            == Out(Repeated(lead, other, helper, small, small', big), [Plain(lead, big)], [])
  {
    var w, msg, own := Added(lead, other, small', big), Plain(helper, small), Plain(lead, big);
    assert small in [small] && small !in [big, small'] && small' in [big, small'];
    assert HasConflict(w.proposed, msg.proposed) && HasChanges(w.proposed, msg.proposed);
    MostOfOne(small);
    TopOfTwo(small', big);
    ConflictToUnion(w, msg, big, small);
    assert big + small == big;
    assert small' in [small'] && small' !in [big] && small' !in [small] && big in [big] && big !in [small];
    FreshCount(w, own, quorumSize);
    FreshCount(w.(msgs := w.msgs + [One(own)], proposed := [big]), msg, quorumSize);
  }

  function Repeated(lead: Process, other: Process, helper: Process, small: View, small': View, big: View): Worker {
    Worker([big], [], Added(lead, other, small', big).msgs + [One(Plain(lead, big))] + [One(Plain(helper, small))], [])
  }

  // ----- how one content is counted -----

  /** The message proposes exactly x, with nothing converged before. */
  predicate Proposes(msg: Msg, x: ViewSeq) {
    msg.proposed == x && msg.converged == []
  }

  /** The counter takes the message for such a one. */
  predicate Like(msg: Msg, x: ViewSeq) {
    Content(msg) == (AsSet(x), {})
  }

  lemma ProposesIsLike(msg: Msg, x: ViewSeq)
    requires Proposes(msg, x)
    ensures Like(msg, x)
  {
    assert AsSet(msg.converged) == {};
  }

  lemma PlainLike(p: Process, u: View, v: View)
    ensures ProperMsg(Plain(p, u)) && (Like(Plain(p, u), [v]) <==> u == v)
  {
    ProposesIsLike(Plain(p, u), [u]);
    assert u in AsSet([u]) && v in AsSet([v]);
  }

  lemma TwoNotLike(p: Process, u: View, u': View, v: View)
    requires u != u'
    ensures ProperMsg(Msg(p, [u, u'], [])) && !Like(Msg(p, [u, u'], []), [v])
  {
    assert u in AsSet([u, u']) && u' in AsSet([u, u']);
  }

  ghost predicate TalliedAt(ts: seq<Tally<Msg>>, x: ViewSeq, n: nat, f: Process, i: nat) {
    && i < |ts| && Like(ts[i].first, x) && ts[i].count == n && ts[i].first.sender == f
    && forall j | 0 <= j < |ts| && j != i :: !Like(ts[j].first, x)
  }

  /** The messages that propose the views of x have been counted n times, the first one from f. */
  ghost predicate Tallied(ts: seq<Tally<Msg>>, x: ViewSeq, n: nat, f: Process) {
    && (forall t | t in ts :: ProperMsg(t.first))
    && if n == 0 then forall t | t in ts :: !Like(t.first, x) else exists i: nat :: TalliedAt(ts, x, n, f, i)
  }

  lemma CountOther(ts: seq<Tally<Msg>>, msg: Msg, x: ViewSeq, n: nat, f: Process, quorumSize: nat)
    requires Tallied(ts, x, n, f) && ProperMsg(msg) && !Like(msg, x)
    ensures Tallied(CountMsg(ts, msg, quorumSize).0, x, n, f)
  {
    var ts', i := CountMsg(ts, msg, quorumSize).0, FirstMatch(ts, msg);
    if i < |ts| { MatchMeaning(ts[i].first, msg); }
    if n > 0 {
      var k: nat :| TalliedAt(ts, x, n, f, k);
      assert TalliedAt(ts', x, n, f, k);
    }
  }

  lemma CountSame(ts: seq<Tally<Msg>>, msg: Msg, x: ViewSeq, n: nat, f: Process, quorumSize: nat)
    requires Tallied(ts, x, n, f) && ProperMsg(msg) && Like(msg, x)
    requires if n == 0 then f == msg.sender else f != msg.sender
    ensures Tallied(CountMsg(ts, msg, quorumSize).0, x, n + 1, f)
    ensures CountMsg(ts, msg, quorumSize).1 <==> n + 1 == quorumSize
  {
    var ts', i := CountMsg(ts, msg, quorumSize).0, FirstMatch(ts, msg);
    if i < |ts| { MatchMeaning(ts[i].first, msg); }
    if n == 0 {
      assert TalliedAt(ts', x, 1, f, |ts|);
    } else {
      var k: nat :| TalliedAt(ts, x, n, f, k);
      MatchMeaning(ts[k].first, msg);
      assert i == k;
      assert TalliedAt(ts', x, n + 1, f, k);
    }
  }

  /** The worker has proposed all views of x. */
  ghost predicate Knows(w: Worker, x: ViewSeq) {
    forall v | v in x :: v in w.proposed
  }

  /** The worker never again sends a proposal of exactly the views of x: it has proposed them, or
      something that x lacks. */
  ghost predicate Past(w: Worker, x: ViewSeq) {
    Knows(w, x) || !(MostUpdated(w.proposed) <= MostUpdated(x))
  }

  ghost predicate Counting(w: Worker, x: ViewSeq, n: nat, f: Process) {
    WorkerOk(w) && Past(w, x) && Tallied(w.msgs, x, n, f)
  }

  /** A worker that hears once more of x; at the quorum-th time it converges. */
  lemma Hears(self: Process, w: Worker, p: Process, x: ViewSeq, n: nat, f: Process, quorumSize: nat)
    requires Proper(x) && Counting(w, x, n, f) && if n == 0 then f == p else f != p
    ensures var o := OnMsg(self, w, Msg(p, x, []), quorumSize);
            && Counting(o.worker, x, n + 1, f) && o.worker.convs == w.convs
            && (n + 1 == quorumSize ==> x in o.convs)
            && (Knows(w, x) ==> o.sends == [] && o.worker.proposed == w.proposed)
  {
    var msg := Msg(p, x, []);
    ProposesIsLike(msg, x);
    OnMsgOk(self, w, msg, quorumSize);
    if HasChanges(w.proposed, x) {
      var (proposed, converged) := Merge(w, msg);
      var own := Msg(self, proposed, converged);
      MergeOk(w, msg);
      if AsSet(proposed) == AsSet(x) { SameViewsSameTop(proposed, x); }
      CountOther(w.msgs, own, x, n, f, quorumSize);
      var first := CountViewSeq(w.(converged := converged), own, quorumSize);
      CountSame(first.worker.msgs, msg, x, n, f, quorumSize);
    } else {
      CountSame(w.msgs, msg, x, n, f, quorumSize);
    }
  }

  /** If x is nothing new to the worker, it stays ready for other views. */
  lemma HearsOther(self: Process, w: Worker, p: Process, x: ViewSeq, x': ViewSeq, n: nat, f: Process, quorumSize: nat)
    requires Proper(x) && Knows(w, x) && AsSet(x) != AsSet(x') && Counting(w, x', n, f)
    ensures Counting(OnMsg(self, w, Msg(p, x, []), quorumSize).worker, x', n, f)
  {
    OnMsgOk(self, w, Msg(p, x, []), quorumSize);
    CountOther(w.msgs, Msg(p, x, []), x', n, f, quorumSize);
  }

  // ----- runs whose initial views are among given ones -----

  ghost predicate From(e: Event, views: iset<View>) {
    e.Begin? ==> Proper(e.initial) && forall v | v in e.initial :: v in views
  }

  ghost function Step(m: set<Process>, views: iset<View>): (State, Event, State) -> bool {
    (s: State, e: Event, t: State) => Enabled(m, s, e) && Next(m, s, e) == t && From(e, views)
  }

  /** Process x did nothing between s and t. */
  ghost predicate Kept(s: State, t: State, x: Process) {
    && (x in s.workers <==> x in t.workers)
    && (x in s.workers ==> t.workers[x] == s.workers[x])
    && Log(t, x) == Log(s, x)
  }

  /** From s to t only the processes ps acted, and none handled a SeqConv. */
  ghost predicate Only(s: State, t: State, ps: set<Process>) {
    && s.sent <= t.sent && s.convs <= t.convs && s.workers.Keys <= t.workers.Keys
    && t.gotConv == s.gotConv
    && (forall x {:trigger Kept(s, t, x)} | x !in ps :: Kept(s, t, x))
    && (Silent(s) ==> Silent(t))
  }

  /** No worker has handled a SeqConv. */
  ghost predicate Silent(s: State) {
    s.gotConv == {} && forall x | x in s.workers :: s.workers[x].convs == []
  }

  /** One stretch of a run after another. */
  lemma Then(m: set<Process>, views: iset<View>, s: State, ps: set<Process>, t: State, qs: set<Process>, u: State,
             rs: set<Process>)
    requires Reaches(Step(m, views), s, t) && Only(s, t, ps) && Reaches(Step(m, views), t, u) && Only(t, u, qs)
    requires ps <= rs && qs <= rs
    ensures Reaches(Step(m, views), s, u) && Only(s, u, rs)
  {
    Concat(Step(m, views), s, t, u);
    forall x | x !in rs ensures Kept(s, u, x) { assert Kept(s, t, x) && Kept(t, u, x); }
  }

  lemma DeliverOnly(m: set<Process>, s: State, p: Process, k: nat)
    requires Enabled(m, s, Deliver(p, k))
    ensures Only(s, Next(m, s, Deliver(p, k)), {p})
  {
    var t := Next(m, s, Deliver(p, k));
    forall x | x != p ensures Kept(s, t, x) { }
  }

  lemma BeginOnly(m: set<Process>, s: State, p: Process, initial: ViewSeq)
    requires Enabled(m, s, Begin(p, initial))
    ensures Only(s, Next(m, s, Begin(p, initial)), {p})
  {
    var t := Next(m, s, Begin(p, initial));
    forall x | x != p ensures Kept(s, t, x) { }
  }

  lemma {:induction false} MoreOf<T>(s: seq<T>, t: seq<T>, x: T)
    requires s <= t
    ensures multiset(t)[x] >= multiset(s)[x] && (x in t[|s|..] ==> multiset(t)[x] > multiset(s)[x])
  {
    assert t == s + t[|s|..];
    assert multiset(t) == multiset(s) + multiset(t[|s|..]);
  }

  /** The messages ks all propose exactly x; the first is from f and no other one is. */
  ghost predicate Batch(s: State, ks: seq<nat>, x: ViewSeq, n: nat, f: Process) {
    && Distinct(ks)
    && forall i | 0 <= i < |ks| ::
         && ks[i] < |s.sent| && Proposes(s.sent[ks[i]], x)
         && if n + i == 0 then f == s.sent[ks[i]].sender else f != s.sent[ks[i]].sender
  }

  /** Worker p can still be made to converge to x: it has heard nothing of it. */
  ghost predicate Ready(s: State, p: Process, x: ViewSeq) {
    && p in s.workers && Counting(s.workers[p], x, 0, p)
    && forall k | k in Log(s, p) :: k < |s.sent| && !Proposes(s.sent[k], x)
  }

  ghost predicate Collecting(m: set<Process>, s: State, p: Process, ks: seq<nat>, x: ViewSeq, n: nat, f: Process) {
    && Proper(x) && p in s.workers && Counting(s.workers[p], x, n, f) && Batch(s, ks, x, n, f)
    && (forall k | k in ks :: k !in Log(s, p)) && n + |ks| == QuorumSize(|m|)
  }

  /** What p has heard of x is of no concern to what it counts of x': it only counts. */
  ghost predicate Aside(s: State, t: State, p: Process, ks: seq<nat>, x': ViewSeq, n': nat, f': Process)
    requires p in s.workers
  {
    && t.sent == s.sent && p in t.workers && t.workers[p].proposed == s.workers[p].proposed
    && (forall k | k in Log(t, p) :: k in Log(s, p) || k in ks)
    && (Counting(s.workers[p], x', n', f') ==> Counting(t.workers[p], x', n', f'))
  }

  lemma CollectOne(m: set<Process>, s: State, p: Process, ks: seq<nat>, x: ViewSeq, n: nat, f: Process)
    requires Collecting(m, s, p, ks, x, n, f) && ks != []
    ensures Enabled(m, s, Deliver(p, ks[0]))
    ensures var u := Next(m, s, Deliver(p, ks[0]));
            && Only(s, u, {p}) && Collecting(m, u, p, ks[1..], x, n + 1, f)
            && (|ks| == 1 ==> x in u.convs[|s.convs|..])
  {
    assert s.sent[ks[0]] == Msg(s.sent[ks[0]].sender, x, []);
    Hears(p, s.workers[p], s.sent[ks[0]].sender, x, n, f, QuorumSize(|m|));
    DeliverOnly(m, s, p, ks[0]);
    var u := Next(m, s, Deliver(p, ks[0]));
    BatchRest(s, u, ks, x, n, f);
    forall k | k in ks[1..] ensures k !in Log(u, p) { }
  }

  lemma CollectAside(m: set<Process>, s: State, p: Process, ks: seq<nat>, x: ViewSeq, n: nat, f: Process,
                     x': ViewSeq, n': nat, f': Process)
    requires Collecting(m, s, p, ks, x, n, f) && ks != [] && Knows(s.workers[p], x) && AsSet(x) != AsSet(x')
    ensures Aside(s, Next(m, s, Deliver(p, ks[0])), p, ks, x', n', f')
  {
    var sender := s.sent[ks[0]].sender;
    assert s.sent[ks[0]] == Msg(sender, x, []);
    Hears(p, s.workers[p], sender, x, n, f, QuorumSize(|m|));
    if Counting(s.workers[p], x', n', f') {
      HearsOther(p, s.workers[p], sender, x, x', n', f', QuorumSize(|m|));
    }
  }

  lemma CollectFirst(m: set<Process>, views: iset<View>, s: State, p: Process, ks: seq<nat>,
                     x: ViewSeq, n: nat, f: Process, x': ViewSeq, n': nat, f': Process) returns (u: State)
    requires Collecting(m, s, p, ks, x, n, f) && ks != []
    ensures Reaches(Step(m, views), s, u) && Only(s, u, {p}) && Collecting(m, u, p, ks[1..], x, n + 1, f)
    ensures multiset(u.convs)[x] >= multiset(s.convs)[x] + if |ks| == 1 then 1 else 0
    ensures Knows(s.workers[p], x) && AsSet(x) != AsSet(x') ==> Aside(s, u, p, ks, x', n', f')
  {
    CollectOne(m, s, p, ks, x, n, f);
    if Knows(s.workers[p], x) && AsSet(x) != AsSet(x') { CollectAside(m, s, p, ks, x, n, f, x', n', f'); }
    u := Next(m, s, Deliver(p, ks[0]));
    assert From(Deliver(p, ks[0]), views);
    Once(Step(m, views), s, Deliver(p, ks[0]), u);
    MoreOf(s.convs, u.convs, x);
  }

  /** Worker p receives the messages ks one after another and converges with the last one. */
  lemma {:induction false} Collect(m: set<Process>, views: iset<View>, s: State, p: Process, ks: seq<nat>,
                                   x: ViewSeq, n: nat, f: Process, x': ViewSeq, n': nat, f': Process)
    returns (t: State)
    requires Collecting(m, s, p, ks, x, n, f) && ks != []
    ensures Reaches(Step(m, views), s, t) && Only(s, t, {p})
    ensures multiset(t.convs)[x] > multiset(s.convs)[x]
    ensures Knows(s.workers[p], x) && AsSet(x) != AsSet(x') ==> Aside(s, t, p, ks, x', n', f')
    decreases |ks|
  {
    t := CollectFirst(m, views, s, p, ks, x, n, f, x', n', f');
    if |ks| > 1 {
      var u := t;
      t := Collect(m, views, u, p, ks[1..], x, n + 1, f, x', n', f');
      Then(m, views, s, {p}, u, {p}, t, {p});
    }
  }

  /** So it stays ready for other views. */
  lemma AsideReady(s: State, t: State, p: Process, ks: seq<nat>, x: ViewSeq, n: nat, f: Process, x': ViewSeq)
    requires p in s.workers && Aside(s, t, p, ks, x', 0, p) && Batch(s, ks, x, n, f) && x != x' && Ready(s, p, x')
    ensures Ready(t, p, x')
  {
    forall k | k in Log(t, p) ensures k < |t.sent| && !Proposes(t.sent[k], x') {
      if k in ks {
        var i :| 0 <= i < |ks| && ks[i] == k;
        assert Proposes(s.sent[ks[i]], x);
      }
    }
  }

  lemma BatchRest(s: State, u: State, ks: seq<nat>, x: ViewSeq, n: nat, f: Process)
    requires Batch(s, ks, x, n, f) && ks != [] && s.sent <= u.sent
    ensures Batch(u, ks[1..], x, n + 1, f)
  {
    forall i | 0 <= i < |ks[1..]|
      ensures ks[1..][i] < |u.sent| && Proposes(u.sent[ks[1..][i]], x) && f != u.sent[ks[1..][i]].sender
    {
      assert ks[1..][i] == ks[i + 1] && u.sent[ks[i + 1]] == s.sent[ks[i + 1]];
    }
  }

  lemma ReadyStays(s: State, t: State, p: Process, x: ViewSeq, ps: set<Process>)
    requires Ready(s, p, x) && Only(s, t, ps) && p !in ps
    ensures Ready(t, p, x)
  {
    assert Kept(s, t, p);
  }

  lemma BatchStays(s: State, t: State, ks: seq<nat>, x: ViewSeq, n: nat, f: Process)
    requires Batch(s, ks, x, n, f) && s.sent <= t.sent
    ensures Batch(t, ks, x, n, f)
  {
  }

  /** Every process of ps, none of which has heard of x, is made to converge to x. */
  lemma {:induction false} CollectAll(m: set<Process>, views: iset<View>, s: State, ps: set<Process>, ks: seq<nat>,
                                      x: ViewSeq, f: Process) returns (t: State)
    requires Proper(x) && (forall p | p in ps :: Ready(s, p, x)) && Batch(s, ks, x, 0, f) && |ks| == QuorumSize(|m|)
    ensures Reaches(Step(m, views), s, t) && Only(s, t, ps)
    ensures multiset(t.convs)[x] >= multiset(s.convs)[x] + |ps|
    decreases |ps|
  {
    if ps == {} {
      t := s;
      Stay(Step(m, views), s);
    } else {
      var p :| p in ps;
      QuorumSizeIsMajority(|m|);
      assert Collecting(m, s, p, ks, x, 0, f);
      var u := Collect(m, views, s, p, ks, x, 0, f, x, 0, f);
      forall p' | p' in ps - {p} ensures Ready(u, p', x) { ReadyStays(s, u, p', x, {p}); }
      BatchStays(s, u, ks, x, 0, f);
      t := CollectAll(m, views, u, ps - {p}, ks, x, f);
      Then(m, views, s, {p}, u, ps - {p}, t, ps);
    }
  }
}
