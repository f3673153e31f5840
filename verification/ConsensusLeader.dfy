/**
 One leader: if rounds are run one after another and a failed round ends the process, then all
 values ever accepted are equal, and what a learner delivers is that value and has been accepted
 by a quorum, although the learn counter mixes the votes of different rounds and although an
 acceptor may see Accept(n) before Prepare(n).
 */
module ConsensusLeader {
  import opened Views
  import opened Consensus

  /** Proposal r is none at all, or the proposal of a round. */
  ghost predicate FromRound(s: State, r: Proposal) {
    if r.n <= 0 then r == NOTHING
    else r.n in s.rounds && s.rounds[r.n].value.Some? && s.rounds[r.n].value == r.value
  }

  ghost predicate AcceptorOk(s: State, p: Process) {
    p in s.acceptors && FromRound(s, s.acceptors[p].accepted)
  }

  ghost predicate VoteOk(m: set<Process>, s: State, v: (Process, int)) {
    && v.0 in m && v.0 in s.acceptors && s.acceptors[v.0].accepted.n > 0
    && v.1 in s.rounds && s.rounds[v.1].value.Some?
  }

  /** A reply to a round comes from a member, and is not empty if its sender had voted before
      the round started. */
  ghost predicate ReplyOk(m: set<Process>, s: State, n: int, p: Process)
    requires n in s.rounds && p in s.rounds[n].replies
  {
    var r := s.rounds[n].replies[p];
    p in m && FromRound(s, r) && (r.n <= 0 ==> forall k :: (p, k) !in s.rounds[n].prior)
  }

  ghost predicate RoundOk(m: set<Process>, s: State, n: int)
    requires n in s.rounds
  {
    && n > 0 && s.rounds[n].at < s.clock && s.rounds[n].prior <= s.votes
    && forall p {:trigger ReplyOk(m, s, n, p)} | p in s.rounds[n].replies :: ReplyOk(m, s, n, p)
  }

  ghost predicate PriorQuorum(s: State, n: int, k: int, q: set<Process>)
    requires n in s.rounds
  {
    forall p | p in q :: (p, k) in s.rounds[n].prior
  }

  /** Round k was accepted by a quorum before round n started, or the other way round, and if
      both have values these are equal. */
  ghost predicate PairOk(m: set<Process>, s: State, n: int, k: int)
    requires n in s.rounds && k in s.rounds
  {
    && (n != k ==> s.rounds[n].at != s.rounds[k].at)
    && (s.rounds[k].at < s.rounds[n].at ==> exists q :: IsQuorum(q, m) && PriorQuorum(s, n, k, q))
    && (s.rounds[n].value.Some? && s.rounds[k].value.Some? ==> s.rounds[n].value == s.rounds[k].value)
  }

  ghost predicate Accepted(m: set<Process>, s: State, v: ViewSeq) {
    exists n :: Chosen(m, s, n) && n in s.rounds && s.rounds[n].value == Some(v)
  }

  ghost predicate LearnerOk(m: set<Process>, s: State, l: Process)
    requires l in s.learners
  {
    var x := s.learners[l];
    x.count == |x.seen| && x.seen <= s.votes && (x.delivered.Some? ==> Accepted(m, s, x.delivered.value))
  }

  ghost predicate Inv(m: set<Process>, s: State) {
    && (forall p {:trigger AcceptorOk(s, p)} | p in m :: AcceptorOk(s, p))
    && (forall v {:trigger VoteOk(m, s, v)} | v in s.votes :: VoteOk(m, s, v))
    && (forall n {:trigger RoundOk(m, s, n)} | n in s.rounds :: RoundOk(m, s, n))
    && (forall n, k {:trigger PairOk(m, s, n, k)} | n in s.rounds && k in s.rounds :: PairOk(m, s, n, k))
    && (forall l {:trigger LearnerOk(m, s, l)} | l in s.learners :: LearnerOk(m, s, l))
  }

  // ----- what a step keeps -----

  ghost predicate RoundStep(s: State, s': State, n: int) {
    n in s.rounds ==>
      && n in s'.rounds && s'.rounds[n].at == s.rounds[n].at && s'.rounds[n].prior == s.rounds[n].prior
      && (s.rounds[n].value.Some? ==> s'.rounds[n].value == s.rounds[n].value)
  }

  ghost predicate Extends(s: State, s': State) {
    && s.clock < s'.clock && s.votes <= s'.votes
    && forall n {:trigger RoundStep(s, s', n)} :: RoundStep(s, s', n)
  }

  lemma StepExtends(m: set<Process>, s: State, e: Event)
    requires Enabled(m, s, e)
    ensures Extends(s, Next(m, s, e))
  {
    var s' := Next(m, s, e);
    forall n ensures RoundStep(s, s', n) { }
  }

  lemma FromRoundStays(s: State, s': State, r: Proposal)
    requires Extends(s, s') && FromRound(s, r)
    ensures FromRound(s', r)
  {
    assert RoundStep(s, s', r.n);
  }

  lemma AcceptorsKept(m: set<Process>, s: State, e: Event, p: Process)
    requires Inv(m, s) && Enabled(m, s, e) && p in m
    ensures AcceptorOk(Next(m, s, e), p)
  {
    StepExtends(m, s, e);
    assert AcceptorOk(s, p);
    FromRoundStays(s, Next(m, s, e), s.acceptors[p].accepted);
    if e.HandleAccept? { assert RoundOk(m, s, e.n); }
  }

  lemma VotesKept(m: set<Process>, s: State, e: Event, v: (Process, int))
    requires Inv(m, s) && Enabled(m, s, e) && v in Next(m, s, e).votes
    ensures VoteOk(m, Next(m, s, e), v)
  {
    StepExtends(m, s, e);
    assert RoundStep(s, Next(m, s, e), v.1);
    if v in s.votes { assert VoteOk(m, s, v); }
    if e.HandleAccept? { assert RoundOk(m, s, e.n); }
  }

  lemma NewReply(m: set<Process>, s: State, e: Event)
    requires Inv(m, s) && e.HandlePrepare? && Enabled(m, s, e) && e.n > s.acceptors[e.p].promise
    ensures ReplyOk(m, Next(m, s, e), e.n, e.p)
  {
    StepExtends(m, s, e);
    assert AcceptorOk(s, e.p) && RoundOk(m, s, e.n);
    FromRoundStays(s, Next(m, s, e), s.acceptors[e.p].accepted);
    forall k | (e.p, k) in s.rounds[e.n].prior
      ensures s.acceptors[e.p].accepted.n > 0
    {
      assert VoteOk(m, s, (e.p, k));
    }
  }

  lemma ReplyStays(m: set<Process>, s: State, s': State, n: int, p: Process)
    requires Inv(m, s) && Extends(s, s') && n in s.rounds && p in s.rounds[n].replies
    requires n in s'.rounds && p in s'.rounds[n].replies && s'.rounds[n].replies[p] == s.rounds[n].replies[p]
    ensures ReplyOk(m, s', n, p)
  {
    assert RoundOk(m, s, n);
    assert ReplyOk(m, s, n, p);
    FromRoundStays(s, s', s.rounds[n].replies[p]);
    assert RoundStep(s, s', n);
  }

  lemma RoundsKept(m: set<Process>, s: State, e: Event, n: int)
    requires Inv(m, s) && Enabled(m, s, e) && n in Next(m, s, e).rounds
    ensures RoundOk(m, Next(m, s, e), n)
  {
    StepExtends(m, s, e);
    var s' := Next(m, s, e);
    if n in s.rounds { assert RoundOk(m, s, n) && RoundStep(s, s', n); }
    forall p | p in s'.rounds[n].replies
      ensures ReplyOk(m, s', n, p)
    {
      if e.HandlePrepare? && e.n == n && e.p == p && e.n > s.acceptors[e.p].promise {
        NewReply(m, s, e);
      } else {
        ReplyStays(m, s, s', n, p);
      }
    }
  }

  lemma VotedRoundHasValue(m: set<Process>, s: State, p: Process, n: int)
    requires Inv(m, s) && (p, n) in s.votes
    ensures n in s.rounds && s.rounds[n].value.Some?
  {
    assert VoteOk(m, s, (p, n));
  }

  /** A round that ends its first phase takes the value every other round has. */
  lemma NewValueIsTheOldOne(m: set<Process>, s: State, e: Event, k: int)
    requires Inv(m, s) && e.FinishPrepare? && Enabled(m, s, e)
    requires k in s.rounds && s.rounds[k].value.Some?
    ensures Next(m, s, e).rounds[e.n].value == s.rounds[k].value
  {
    assert PairOk(m, s, e.n, k) && PairOk(m, s, k, e.n) && RoundOk(m, s, e.n);
    assert RoundOk(m, s, k);
    if s.rounds[e.n].at < s.rounds[k].at {
      var q :| IsQuorum(q, m) && PriorQuorum(s, k, e.n, q);
      var p := QuorumNonEmpty(m, q);
      VotedRoundHasValue(m, s, p, e.n);
      assert false;
    }
    var q :| IsQuorum(q, m) && PriorQuorum(s, e.n, k, q);
    OrderIsQuorum(m, s, e);
    var p := QuorumsIntersect(m, q, AsSet(e.order));
    var replies := Replies(e.order, s.rounds[e.n].replies);
    var top := Highest(replies, NOTHING);
    assert (p, k) in s.rounds[e.n].prior;
    var j :| 0 <= j < |e.order| && e.order[j] == p;
    assert ReplyOk(m, s, e.n, p) && replies[j] == s.rounds[e.n].replies[p];
    assert top.n > 0;
    var i :| 0 <= i < |replies| && replies[i] == top;
    assert ReplyOk(m, s, e.n, e.order[i]);
    assert PairOk(m, s, top.n, k);
  }

  lemma OrderIsQuorum(m: set<Process>, s: State, e: Event)
    requires Inv(m, s) && e.FinishPrepare? && Enabled(m, s, e)
    ensures IsQuorum(AsSet(e.order), m)
  {
    DistinctCardinality(e.order);
    assert RoundOk(m, s, e.n);
    forall p | p in e.order ensures p in m { assert ReplyOk(m, s, e.n, p); }
  }

  lemma QuorumBefore(m: set<Process>, s: State, e: Event, n: int, k: int)
    requires Inv(m, s) && Enabled(m, s, e) && OneLeader(m, s, e)
    requires n in Next(m, s, e).rounds && k in Next(m, s, e).rounds
    requires Next(m, s, e).rounds[k].at < Next(m, s, e).rounds[n].at
    ensures exists q :: IsQuorum(q, m) && PriorQuorum(Next(m, s, e), n, k, q)
  {
    StepExtends(m, s, e);
    var s' := Next(m, s, e);
    if n in s.rounds {
      assert RoundOk(m, s, n) && RoundStep(s, s', n) && RoundStep(s, s', k);
      assert k in s.rounds;
      assert PairOk(m, s, n, k);
      var q :| IsQuorum(q, m) && PriorQuorum(s, n, k, q);
      assert PriorQuorum(s', n, k, q);
    } else {
      var q :| IsQuorum(q, m) && VotedBy(s, q, k);
      assert PriorQuorum(s', n, k, q);
    }
  }

  lemma PairsKept(m: set<Process>, s: State, e: Event, n: int, k: int)
    requires Inv(m, s) && Enabled(m, s, e) && OneLeader(m, s, e)
    requires n in Next(m, s, e).rounds && k in Next(m, s, e).rounds
    ensures PairOk(m, Next(m, s, e), n, k)
  {
    StepExtends(m, s, e);
    var s' := Next(m, s, e);
    assert RoundStep(s, s', n) && RoundStep(s, s', k);
    if n in s.rounds { assert RoundOk(m, s, n); }
    if k in s.rounds { assert RoundOk(m, s, k); }
    if n in s.rounds && k in s.rounds { assert PairOk(m, s, n, k); }
    if s'.rounds[k].at < s'.rounds[n].at { QuorumBefore(m, s, e, n, k); }
    if e.FinishPrepare? && n != k && s'.rounds[n].value.Some? && s'.rounds[k].value.Some? {
      if e.n == n { NewValueIsTheOldOne(m, s, e, k); }
      if e.n == k { NewValueIsTheOldOne(m, s, e, n); }
    }
  }

  // ----- learners -----

  lemma AcceptedStays(m: set<Process>, s: State, s': State, v: ViewSeq)
    requires Extends(s, s') && Accepted(m, s, v)
    ensures Accepted(m, s', v)
  {
    var n :| Chosen(m, s, n) && n in s.rounds && s.rounds[n].value == Some(v);
    var q :| IsQuorum(q, m) && VotedBy(s, q, n);
    assert VotedBy(s', q, n) && RoundStep(s, s', n);
    assert Chosen(m, s', n);
  }

  /** If two rounds have been voted for, the earlier one was accepted by a quorum. */
  lemma EarlierRoundChosen(m: set<Process>, s: State, n: int, k: int)
    requires Inv(m, s) && n in s.rounds && k in s.rounds && n != k
    requires s.rounds[n].value.Some? && s.rounds[k].value.Some?
    ensures Accepted(m, s, s.rounds[n].value.value)
  {
    assert PairOk(m, s, n, k) && PairOk(m, s, k, n) && RoundOk(m, s, n) && RoundOk(m, s, k);
    var late := if s.rounds[k].at < s.rounds[n].at then n else k;
    var early := if s.rounds[k].at < s.rounds[n].at then k else n;
    var q :| IsQuorum(q, m) && PriorQuorum(s, late, early, q);
    assert VotedBy(s, q, early);
    assert Chosen(m, s, early);
  }

  /** As many votes as a quorum, for one number, are the votes of a quorum. */
  lemma {:induction false} VotersOf(votes: set<(Process, int)>, n: int) returns (q: set<Process>)
    requires forall v | v in votes :: v.1 == n
    ensures |q| == |votes| && forall p :: p in q <==> (p, n) in votes
  {
    if votes == {} {
      q := {};
    } else {
      var v :| v in votes;
      var rest := VotersOf(votes - {v}, n);
      q := rest + {v.0};
    }
  }

  lemma FullCountIsAccepted(m: set<Process>, s: State, votes: set<(Process, int)>, n: int)
    requires Inv(m, s) && votes <= s.votes && |votes| == QuorumSize(|m|)
    requires n in s.rounds && s.rounds[n].value.Some?
    ensures Accepted(m, s, s.rounds[n].value.value)
  {
    if v :| v in votes && v.1 != n {
      assert VoteOk(m, s, v);
      EarlierRoundChosen(m, s, n, v.1);
    } else {
      var q := VotersOf(votes, n);
      forall p | p in q ensures p in m { assert VoteOk(m, s, (p, n)); }
      assert VotedBy(s, q, n);
      assert Chosen(m, s, n);
    }
  }

  lemma LearnersKept(m: set<Process>, s: State, e: Event, l: Process)
    requires Inv(m, s) && Enabled(m, s, e) && l in Next(m, s, e).learners
    ensures LearnerOk(m, Next(m, s, e), l)
  {
    StepExtends(m, s, e);
    var s' := Next(m, s, e);
    assert LearnerOk(m, s, l);
    if s.learners[l].delivered.Some? { AcceptedStays(m, s, s', s.learners[l].delivered.value); }
    if e.HandleLearn? && e.learner == l && s.learners[l].count + 1 == QuorumSize(|m|) {
      FullCountIsAccepted(m, s, s.learners[l].seen + {(e.p, e.n)}, e.n);
      AcceptedStays(m, s, s', s.rounds[e.n].value.value);
    }
  }

  lemma StepInv(m: set<Process>, s: State, e: Event)
    requires Inv(m, s) && Enabled(m, s, e) && OneLeader(m, s, e)
    ensures Inv(m, Next(m, s, e))
  {
    var s' := Next(m, s, e);
    forall p | p in m ensures AcceptorOk(s', p) { AcceptorsKept(m, s, e, p); }
    forall v | v in s'.votes ensures VoteOk(m, s', v) { VotesKept(m, s, e, v); }
    forall n | n in s'.rounds ensures RoundOk(m, s', n) { RoundsKept(m, s, e, n); }
    forall n, k | n in s'.rounds && k in s'.rounds ensures PairOk(m, s', n, k) { PairsKept(m, s, e, n, k); }
    forall l | l in s'.learners ensures LearnerOk(m, s', l) { LearnersKept(m, s, e, l); }
  }

  lemma {:induction false} RunInv(m: set<Process>, tr: seq<State>, es: seq<Event>, i: nat)
    requires Run(m, tr, es) && i < |tr| && forall j | 0 <= j < |es| :: OneLeader(m, tr[j], es[j])
    ensures Inv(m, tr[i])
  {
    if i > 0 {
      RunInv(m, tr, es, i - 1);
      StepInv(m, tr[i - 1], es[i - 1]);
    }
  }

  // ----- the theorems -----

  /** All values accepted in the instance, by any acceptor in any round, are equal. */
  lemma OneLeaderOneValue(m: set<Process>, tr: seq<State>, es: seq<Event>, i: nat,
                          v: (Process, int), v': (Process, int))
    requires Run(m, tr, es) && i < |tr| && forall j | 0 <= j < |es| :: OneLeader(m, tr[j], es[j])
    requires v in tr[i].votes && v' in tr[i].votes
    ensures v.1 in tr[i].rounds && v'.1 in tr[i].rounds
    ensures tr[i].rounds[v.1].value.Some? && tr[i].rounds[v.1].value == tr[i].rounds[v'.1].value
  {
    RunInv(m, tr, es, i);
    assert VoteOk(m, tr[i], v) && VoteOk(m, tr[i], v');
    assert PairOk(m, tr[i], v.1, v'.1);
  }

  /** What a learner delivers has been accepted by a quorum, and is what every vote is for. */
  lemma LearnerDeliversTheChosenValue(m: set<Process>, tr: seq<State>, es: seq<Event>, i: nat, l: Process)
    requires Run(m, tr, es) && i < |tr| && forall j | 0 <= j < |es| :: OneLeader(m, tr[j], es[j])
    requires l in tr[i].learners && tr[i].learners[l].delivered.Some?
    ensures Accepted(m, tr[i], tr[i].learners[l].delivered.value)
    ensures forall v | v in tr[i].votes ::
              v.1 in tr[i].rounds && tr[i].rounds[v.1].value == tr[i].learners[l].delivered
  {
    RunInv(m, tr, es, i);
    var s := tr[i];
    assert LearnerOk(m, s, l);
    var n :| Chosen(m, s, n) && n in s.rounds && s.rounds[n].value == s.learners[l].delivered;
    forall v | v in s.votes
      ensures v.1 in s.rounds && s.rounds[v.1].value == s.learners[l].delivered
    {
      assert VoteOk(m, s, v);
      assert PairOk(m, s, v.1, n);
    }
  }

  // ----- when a learner delivers, in every run -----

  ghost predicate LearnerCounts(m: set<Process>, x: Learner) {
    x.count == |x.seen| && (x.delivered.Some? <==> |x.seen| >= QuorumSize(|m|))
  }

  /** A learner has delivered exactly if it has handled Learns of a quorum's size. */
  lemma {:induction false} DeliversIffQuorumSeen(m: set<Process>, tr: seq<State>, es: seq<Event>, i: nat, l: Process)
    requires Run(m, tr, es) && i < |tr| && l in tr[i].learners
    ensures LearnerCounts(m, tr[i].learners[l])
  {
    QuorumSizeIsMajority(|m|);
    if i > 0 {
      assert tr[i] == Next(m, tr[i - 1], es[i - 1]);
      DeliversIffQuorumSeen(m, tr, es, i - 1, l);
    }
  }

  /** The Learn that completes the quorum delivers the value of its round. */
  lemma QuorumthLearnDelivers(m: set<Process>, tr: seq<State>, es: seq<Event>, i: nat)
    requires Run(m, tr, es) && i < |es| && es[i].HandleLearn?
    requires |tr[i + 1].learners[es[i].learner].seen| == QuorumSize(|m|)
    ensures tr[i + 1].learners[es[i].learner].seen == tr[i].learners[es[i].learner].seen + {(es[i].p, es[i].n)}
    ensures tr[i + 1].learners[es[i].learner].delivered == tr[i].rounds[es[i].n].value
    ensures tr[i].learners[es[i].learner].delivered.None?
  {
    DeliversIffQuorumSeen(m, tr, es, i, es[i].learner);
    DeliversIffQuorumSeen(m, tr, es, i + 1, es[i].learner);
  }

  /** And no later step changes what was delivered. */
  lemma {:induction false} DeliveredStays(m: set<Process>, tr: seq<State>, es: seq<Event>, i: nat, j: nat, l: Process)
    requires Run(m, tr, es) && i <= j < |tr| && l in tr[i].learners && tr[i].learners[l].delivered.Some?
    ensures l in tr[j].learners && tr[j].learners[l].delivered == tr[i].learners[l].delivered
    decreases j - i
  {
    if i < j {
      DeliversIffQuorumSeen(m, tr, es, i, l);
      assert tr[i + 1] == Next(m, tr[i], es[i]);
      DeliveredStays(m, tr, es, i + 1, j, l);
    }
  }
}
