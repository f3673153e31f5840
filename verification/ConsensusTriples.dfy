/**
 Agreement without any hypothesis on the order of requests, in views where any three quorums share
 a process. An acceptor that answered Prepare(a) before round a got its value, and then voted for
 a, never again reports a smaller number. So the round a quorum accepted is found by every larger
 one, whose value then comes from that round or from another one above it.
 */
module ConsensusTriples {
  import opened Views
  import opened Consensus
  import Leader = ConsensusLeader

  ghost predicate AcceptorOk(s: State, p: Process) {
    p in s.acceptors && Leader.FromRound(s, s.acceptors[p].accepted)
  }

  ghost predicate VoteOk(m: set<Process>, s: State, v: (Process, int)) {
    v.0 in m && v.1 in s.rounds && s.rounds[v.1].value.Some?
  }

  ghost predicate ReplyOk(m: set<Process>, s: State, n: int, p: Process)
    requires n in s.rounds && p in s.rounds[n].replies
  {
    && p in m && p in s.acceptors && n <= s.acceptors[p].promise
    && Leader.FromRound(s, s.rounds[n].replies[p])
  }

  ghost predicate RoundOk(m: set<Process>, s: State, n: int)
    requires n in s.rounds
  {
    && n > 0
    && (forall p {:trigger ReplyOk(m, s, n, p)} | p in s.rounds[n].replies :: ReplyOk(m, s, n, p))
    && (s.rounds[n].value.Some? ==>
          IsQuorum(s.rounds[n].quorum, m) && s.rounds[n].quorum <= s.rounds[n].replies.Keys)
  }

  /** Acceptor p answered Prepare(a) in time for the value of round a, and voted for it. */
  ghost predicate Witness(s: State, p: Process, a: int) {
    a in s.rounds && s.rounds[a].value.Some? && p in s.rounds[a].quorum && (p, a) in s.votes
  }

  /** Then its accepted number, and every answer it gives to a larger round, is at least a. */
  ghost predicate WitnessOk(s: State, p: Process, a: int, b: int) {
    Witness(s, p, a) ==>
      && p in s.acceptors && a <= s.acceptors[p].accepted.n
      && (a < b && b in s.rounds && p in s.rounds[b].replies ==> a <= s.rounds[b].replies[p].n)
  }

  ghost predicate Inv(m: set<Process>, s: State) {
    && (forall p {:trigger AcceptorOk(s, p)} | p in m :: AcceptorOk(s, p))
    && (forall v {:trigger VoteOk(m, s, v)} | v in s.votes :: VoteOk(m, s, v))
    && (forall n {:trigger RoundOk(m, s, n)} | n in s.rounds :: RoundOk(m, s, n))
    && (forall p, a, b {:trigger WitnessOk(s, p, a, b)} :: WitnessOk(s, p, a, b))
  }

  // ----- preservation -----

  ghost predicate ReplyStep(s: State, s': State, n: int, p: Process) {
    n in s.rounds && p in s.rounds[n].replies ==>
      n in s'.rounds && p in s'.rounds[n].replies && s'.rounds[n].replies[p] == s.rounds[n].replies[p]
  }

  ghost predicate RoundStep(s: State, s': State, n: int) {
    n in s.rounds && s.rounds[n].value.Some? ==>
      n in s'.rounds && s'.rounds[n].value == s.rounds[n].value && s'.rounds[n].quorum == s.rounds[n].quorum
  }

  lemma RepliesStay(m: set<Process>, s: State, e: Event, n: int, p: Process)
    requires Inv(m, s) && Enabled(m, s, e)
    ensures ReplyStep(s, Next(m, s, e), n, p) && RoundStep(s, Next(m, s, e), n)
  {
    if n in s.rounds && p in s.rounds[n].replies { assert RoundOk(m, s, n) && ReplyOk(m, s, n, p); }
  }

  lemma AcceptorsKept(m: set<Process>, s: State, e: Event, p: Process)
    requires Inv(m, s) && Enabled(m, s, e) && p in m
    ensures AcceptorOk(Next(m, s, e), p)
  {
    Leader.StepExtends(m, s, e);
    assert AcceptorOk(s, p);
    Leader.FromRoundStays(s, Next(m, s, e), s.acceptors[p].accepted);
    if e.HandleAccept? { assert RoundOk(m, s, e.n); }
  }

  lemma VotesKept(m: set<Process>, s: State, e: Event, v: (Process, int))
    requires Inv(m, s) && Enabled(m, s, e) && v in Next(m, s, e).votes
    ensures VoteOk(m, Next(m, s, e), v)
  {
    if v in s.votes {
      assert VoteOk(m, s, v);
      RepliesStay(m, s, e, v.1, v.0);
    }
  }

  lemma ReplyKept(m: set<Process>, s: State, e: Event, n: int, p: Process)
    requires Inv(m, s) && Enabled(m, s, e)
    requires n in Next(m, s, e).rounds && p in Next(m, s, e).rounds[n].replies
    ensures ReplyOk(m, Next(m, s, e), n, p)
  {
    var s' := Next(m, s, e);
    Leader.StepExtends(m, s, e);
    if n in s.rounds && p in s.rounds[n].replies {
      assert RoundOk(m, s, n) && ReplyOk(m, s, n, p);
      RepliesStay(m, s, e, n, p);
      Leader.FromRoundStays(s, s', s.rounds[n].replies[p]);
    } else {
      assert e.HandlePrepare? && e.p == p;
      assert AcceptorOk(s, p);
      Leader.FromRoundStays(s, s', s.acceptors[p].accepted);
    }
  }

  lemma OrderIsQuorum(m: set<Process>, s: State, e: Event)
    requires Inv(m, s) && e.FinishPrepare? && Enabled(m, s, e)
    ensures IsQuorum(AsSet(e.order), m) && AsSet(e.order) <= s.rounds[e.n].replies.Keys
  {
    DistinctCardinality(e.order);
    assert RoundOk(m, s, e.n);
    forall p | p in e.order ensures p in m { assert ReplyOk(m, s, e.n, p); }
  }

  lemma RoundsKept(m: set<Process>, s: State, e: Event, n: int)
    requires Inv(m, s) && Enabled(m, s, e) && n in Next(m, s, e).rounds
    ensures RoundOk(m, Next(m, s, e), n)
  {
    var s' := Next(m, s, e);
    forall p | p in s'.rounds[n].replies ensures ReplyOk(m, s', n, p) { ReplyKept(m, s, e, n, p); }
    if n in s.rounds { assert RoundOk(m, s, n); }
    if e.FinishPrepare? && e.n == n {
      OrderIsQuorum(m, s, e);
    } else if n in s.rounds && s.rounds[n].value.Some? {
      forall p | p in s.rounds[n].quorum ensures p in s'.rounds[n].replies { RepliesStay(m, s, e, n, p); }
    }
  }

  lemma ReplierPromised(m: set<Process>, s: State, p: Process, n: int)
    requires Inv(m, s)
    ensures n in s.rounds && p in s.rounds[n].replies ==> p in s.acceptors && n <= s.acceptors[p].promise
    ensures n in s.rounds && s.rounds[n].value.Some? && p in s.rounds[n].quorum ==> p in s.rounds[n].replies
  {
    if n in s.rounds {
      assert RoundOk(m, s, n);
      if p in s.rounds[n].replies { assert ReplyOk(m, s, n, p); }
    }
  }

  /** A new vote is for at least the promise, so it forgets nothing a witness knew. */
  lemma WitnessAfterVote(m: set<Process>, s: State, e: Event, a: int, b: int)
    requires Inv(m, s) && e.HandleAccept? && Enabled(m, s, e)
    ensures WitnessOk(Next(m, s, e), e.p, a, b)
  {
    assert WitnessOk(s, e.p, a, b);
    ReplierPromised(m, s, e.p, a);
    ReplierPromised(m, s, e.p, b);
  }

  lemma WitnessKept(m: set<Process>, s: State, e: Event, p: Process, a: int, b: int)
    requires Inv(m, s) && Enabled(m, s, e)
    ensures WitnessOk(Next(m, s, e), p, a, b)
  {
    var s' := Next(m, s, e);
    assert WitnessOk(s, p, a, b);
    if e.HandleAccept? && e.p == p {
      WitnessAfterVote(m, s, e, a, b);
    } else if Witness(s', p, a) {
      assert VoteOk(m, s, (p, a));
      RepliesStay(m, s, e, a, p);
      RepliesStay(m, s, e, b, p);
    }
  }

  lemma StepInv(m: set<Process>, s: State, e: Event)
    requires Inv(m, s) && Enabled(m, s, e)
    ensures Inv(m, Next(m, s, e))
  {
    var s' := Next(m, s, e);
    forall p | p in m ensures AcceptorOk(s', p) { AcceptorsKept(m, s, e, p); }
    forall v | v in s'.votes ensures VoteOk(m, s', v) { VotesKept(m, s, e, v); }
    forall n | n in s'.rounds ensures RoundOk(m, s', n) { RoundsKept(m, s, e, n); }
    forall p, a, b ensures WitnessOk(s', p, a, b) { WitnessKept(m, s, e, p, a, b); }
  }

  lemma {:induction false} RunInv(m: set<Process>, tr: seq<State>, es: seq<Event>, i: nat)
    requires Run(m, tr, es) && i < |tr|
    ensures Inv(m, tr[i])
  {
    if i > 0 {
      RunInv(m, tr, es, i - 1);
      StepInv(m, tr[i - 1], es[i - 1]);
    }
  }

  // ----- agreement -----

  /** Three quorums share a process if three times their size exceeds twice the members. */
  lemma ThreeIntersect(m: set<Process>, q1: set<Process>, q2: set<Process>, q3: set<Process>) returns (p: Process)
    requires IsQuorum(q1, m) && IsQuorum(q2, m) && IsQuorum(q3, m) && 3 * QuorumSize(|m|) > 2 * |m|
    ensures p in q1 && p in q2 && p in q3
  {
    SubsetCardinality(q1 + q2, m);
    assert |q1 + q2| + |q1 * q2| == |q1| + |q2|;
    var both := q1 * q2;
    SubsetCardinality(both + q3, m);
    assert |both + q3| + |both * q3| == |both| + |q3|;
    p :| p in both * q3;
  }

  lemma StepsCompose(s: State, t: State, u: State, n: int, p: Process)
    requires ReplyStep(s, t, n, p) && RoundStep(s, t, n) && ReplyStep(t, u, n, p) && RoundStep(t, u, n)
    ensures ReplyStep(s, u, n, p) && RoundStep(s, u, n)
  {
  }

  lemma RoundsNext(m: set<Process>, tr: seq<State>, es: seq<Event>, i: nat, n: int, p: Process)
    requires Run(m, tr, es) && i < |es|
    ensures ReplyStep(tr[i], tr[i + 1], n, p) && RoundStep(tr[i], tr[i + 1], n)
  {
    RunInv(m, tr, es, i);
    RepliesStay(m, tr[i], es[i], n, p);
  }

  lemma {:induction false} RoundsStay(m: set<Process>, tr: seq<State>, es: seq<Event>, j: nat, i: nat,
                                      n: int, p: Process)
    requires Run(m, tr, es) && j <= i < |tr|
    ensures ReplyStep(tr[j], tr[i], n, p) && RoundStep(tr[j], tr[i], n)
    decreases i - j
  {
    if j < i {
      RoundsNext(m, tr, es, j, n, p);
      RoundsStay(m, tr, es, j + 1, i, n, p);
      StepsCompose(tr[j], tr[j + 1], tr[i], n, p);
    }
  }

  /** Round e.n finds a witness of round a, so its value comes from a round at or above a. */
  lemma FindsRound(m: set<Process>, tr: seq<State>, es: seq<Event>, j: nat, i: nat, a: int, q: set<Process>)
    requires Run(m, tr, es) && j < i < |tr| && 3 * QuorumSize(|m|) > 2 * |m| && es[j].FinishPrepare?
    requires IsQuorum(q, m) && VotedBy(tr[i], q, a) && a < es[j].n
    ensures var top := Highest(Replies(es[j].order, tr[j].rounds[es[j].n].replies), NOTHING);
            && a <= top.n && top.n in tr[j].rounds && tr[j].rounds[top.n].value.Some?
            && top.value == tr[j].rounds[top.n].value
  {
    var s, e := tr[j], es[j];
    RunInv(m, tr, es, j);
    RunInv(m, tr, es, i);
    OrderIsQuorum(m, s, e);
    var x := QuorumNonEmpty(m, q);
    assert VoteOk(m, tr[i], (x, a));
    assert RoundOk(m, tr[i], a);
    var p := ThreeIntersect(m, tr[i].rounds[a].quorum, q, AsSet(e.order));
    RoundsStay(m, tr, es, j, i, e.n, p);
    assert WitnessOk(tr[i], p, a, e.n);
    TopReply(m, s, e, p);
  }

  /** The highest reply is the proposal of a round, if any reply is. */
  lemma TopReply(m: set<Process>, s: State, e: Event, p: Process)
    requires Inv(m, s) && e.FinishPrepare? && Enabled(m, s, e) && p in e.order && s.rounds[e.n].replies[p].n > 0
    ensures var top := Highest(Replies(e.order, s.rounds[e.n].replies), NOTHING);
            && s.rounds[e.n].replies[p].n <= top.n && top.n in s.rounds && s.rounds[top.n].value.Some?
            && top.value == s.rounds[top.n].value
  {
    var replies := Replies(e.order, s.rounds[e.n].replies);
    var top := Highest(replies, NOTHING);
    var k :| 0 <= k < |e.order| && e.order[k] == p;
    assert replies[k] == s.rounds[e.n].replies[p];
    var i :| 0 <= i < |replies| && replies[i] == top;
    assert RoundOk(m, s, e.n) && ReplyOk(m, s, e.n, e.order[i]);
  }

  /** Every round at or above a accepted one that has a value at time j has its value. */
  lemma {:induction false} RoundsAbove(m: set<Process>, tr: seq<State>, es: seq<Event>, j: nat, i: nat,
                                       a: int, q: set<Process>, b: int)
    requires Run(m, tr, es) && j <= i < |tr| && 3 * QuorumSize(|m|) > 2 * |m|
    requires IsQuorum(q, m) && VotedBy(tr[i], q, a)
    requires a <= b && b in tr[j].rounds && tr[j].rounds[b].value.Some?
    ensures a in tr[i].rounds && tr[j].rounds[b].value == tr[i].rounds[a].value
    decreases j
  {
    RunInv(m, tr, es, i);
    var x := QuorumNonEmpty(m, q);
    assert VoteOk(m, tr[i], (x, a));
    if a == b {
      RoundsStay(m, tr, es, j, i, a, x);
    } else if j > 0 {
      var s, e := tr[j - 1], es[j - 1];
      if b in s.rounds && s.rounds[b].value.Some? {
        RoundsAbove(m, tr, es, j - 1, i, a, q, b);
        RoundsStay(m, tr, es, j - 1, j, b, x);
      } else {
        assert e.FinishPrepare? && e.n == b;
        FindsRound(m, tr, es, j - 1, i, a, q);
        var top := Highest(Replies(e.order, s.rounds[b].replies), NOTHING);
        RoundsAbove(m, tr, es, j - 1, i, a, q, top.n);
      }
    }
  }

  /** In such a view any two values accepted by a quorum are equal, in every run. */
  lemma AgreementInSmallViews(m: set<Process>, tr: seq<State>, es: seq<Event>, i: nat, a: int, b: int)
    requires Run(m, tr, es) && i < |tr| && 3 * QuorumSize(|m|) > 2 * |m|
    requires Chosen(m, tr[i], a) && Chosen(m, tr[i], b)
    ensures a in tr[i].rounds && b in tr[i].rounds
    ensures tr[i].rounds[a].value.Some? && tr[i].rounds[a].value == tr[i].rounds[b].value
  {
    RunInv(m, tr, es, i);
    var s := tr[i];
    var qa :| IsQuorum(qa, m) && VotedBy(s, qa, a);
    var qb :| IsQuorum(qb, m) && VotedBy(s, qb, b);
    var x := QuorumNonEmpty(m, qa);
    var y := QuorumNonEmpty(m, qb);
    assert VoteOk(m, s, (x, a)) && VoteOk(m, s, (y, b));
    if a <= b { RoundsAbove(m, tr, es, i, i, a, qa, b); } else { RoundsAbove(m, tr, es, i, i, b, qb, a); }
  }
}
