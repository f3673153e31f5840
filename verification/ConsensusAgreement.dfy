/**
 Agreement with any number of proposers: if every acceptor handles Prepare(n) before Accept(n),
 then in every reachable state any two values accepted by a quorum, at any two proposal numbers,
 are equal.
 */
module ConsensusAgreement {
  import opened Views
  import opened Consensus

  ghost predicate AcceptorOk(s: State, p: Process) {
    p in s.acceptors &&
    var a := s.acceptors[p];
    && 0 <= a.accepted.n <= a.promise
    && (a.accepted.n == 0 ==> a.accepted.value == None)
    && (a.accepted.n > 0 ==>
          && (p, a.accepted.n) in s.votes && a.accepted.n in s.rounds
          && s.rounds[a.accepted.n].value == a.accepted.value && a.accepted.value.Some?)
  }

  ghost predicate VoteOk(m: set<Process>, s: State, v: (Process, int)) {
    && v.0 in m && v.0 in s.acceptors && 0 < v.1 <= s.acceptors[v.0].accepted.n
    && v.1 in s.rounds && s.rounds[v.1].value.Some?
  }

  ghost predicate PreparedOk(s: State, v: (Process, int)) {
    v.0 in s.acceptors && v.1 <= s.acceptors[v.0].promise
  }

  ghost predicate NoVote(s: State, p: Process, k: int) {
    (p, k) !in s.votes
  }

  ghost predicate NoVotesBetween(s: State, p: Process, low: int, high: int) {
    forall k {:trigger NoVote(s, p, k)} | low < k < high :: NoVote(s, p, k)
  }

  /** What a reply to Prepare(n) says: the acceptor's latest vote, and none between that and n. */
  ghost predicate ReplyOk(m: set<Process>, s: State, n: int, p: Process)
    requires n in s.rounds && p in s.rounds[n].replies
  {
    var r := s.rounds[n].replies[p];
    && p in m && p in s.acceptors && n <= s.acceptors[p].promise
    && 0 <= r.n < n && NoVotesBetween(s, p, r.n, n)
    && (r.n == 0 ==> r.value == None)
    && (r.n > 0 ==> r.n in s.rounds && s.rounds[r.n].value == r.value && r.value.Some?)
  }

  /** Why the value of round n is safe: its quorum cast no vote between the round the value was
      taken from and n, and never will. */
  ghost predicate SafeOk(m: set<Process>, s: State, n: int)
    requires n in s.rounds
  {
    var r := s.rounds[n];
    r.value.Some? ==>
      && IsQuorum(r.quorum, m) && 0 <= r.base < n
      && (r.base > 0 ==> r.base in s.rounds && s.rounds[r.base].value == r.value)
      && forall p {:trigger NoVotesBetween(s, p, r.base, n)} | p in r.quorum ::
           p in s.acceptors && n <= s.acceptors[p].promise && NoVotesBetween(s, p, r.base, n)
  }

  ghost predicate RepliesOk(m: set<Process>, s: State, n: int)
    requires n in s.rounds
  {
    forall p {:trigger ReplyOk(m, s, n, p)} | p in s.rounds[n].replies :: ReplyOk(m, s, n, p)
  }

  ghost predicate Inv(m: set<Process>, s: State) {
    && (forall p {:trigger AcceptorOk(s, p)} | p in m :: AcceptorOk(s, p))
    && (forall v {:trigger VoteOk(m, s, v)} | v in s.votes :: VoteOk(m, s, v))
    && (forall v {:trigger PreparedOk(s, v)} | v in s.prepared :: PreparedOk(s, v))
    && (forall n {:trigger RepliesOk(m, s, n)} | n in s.rounds :: RepliesOk(m, s, n))
    && (forall n {:trigger SafeOk(m, s, n)} | n in s.rounds :: SafeOk(m, s, n))
  }

  // ----- how a step may change what others rely on -----

  /** A vote cast by the step is for a number its acceptor has just promised. */
  ghost predicate VoteStep(s: State, s': State, p: Process, k: int) {
    && ((p, k) in s.votes ==> (p, k) in s'.votes)
    && ((p, k) !in s.votes && (p, k) in s'.votes ==> p in s.acceptors && k == s.acceptors[p].promise)
  }

  ghost predicate AcceptorStep(s: State, s': State, p: Process) {
    p in s.acceptors ==>
      && p in s'.acceptors && s.acceptors[p].promise <= s'.acceptors[p].promise
      && (s'.acceptors[p].accepted == s.acceptors[p].accepted || s'.acceptors[p].accepted.n == s.acceptors[p].promise)
  }

  /** A round keeps its value, and the replies it has. */
  ghost predicate RoundStep(s: State, s': State, n: int) {
    n in s.rounds ==>
      && n in s'.rounds
      && (s.rounds[n].value.Some? ==> s'.rounds[n] == s.rounds[n].(replies := s'.rounds[n].replies))
  }

  ghost predicate Extends(s: State, s': State) {
    && (forall p, k {:trigger VoteStep(s, s', p, k)} :: VoteStep(s, s', p, k))
    && (forall p {:trigger AcceptorStep(s, s', p)} :: AcceptorStep(s, s', p))
    && (forall n {:trigger RoundStep(s, s', n)} :: RoundStep(s, s', n))
  }

  lemma StepExtends(m: set<Process>, s: State, e: Event)
    requires Inv(m, s) && Enabled(m, s, e) && PrepareFirst(s, e)
    ensures Extends(s, Next(m, s, e))
  {
    if e.HandleAccept? { assert PreparedOk(s, (e.p, e.n)); }
    var s' := Next(m, s, e);
    forall p, k ensures VoteStep(s, s', p, k) { }
    forall p ensures AcceptorStep(s, s', p) { }
    forall n ensures RoundStep(s, s', n) { }
  }

  lemma NoVotesStays(s: State, s': State, p: Process, low: int, high: int)
    requires Extends(s, s') && NoVotesBetween(s, p, low, high)
    requires p in s.acceptors && high <= s.acceptors[p].promise
    ensures NoVotesBetween(s', p, low, high)
  {
    forall k | low < k < high
      ensures NoVote(s', p, k)
    {
      assert NoVote(s, p, k) && VoteStep(s, s', p, k);
    }
  }

  // ----- preservation -----

  lemma AcceptorsKept(m: set<Process>, s: State, e: Event, p: Process)
    requires Inv(m, s) && Enabled(m, s, e) && PrepareFirst(s, e) && Extends(s, Next(m, s, e)) && p in m
    ensures AcceptorOk(Next(m, s, e), p)
  {
    var s' := Next(m, s, e);
    assert AcceptorOk(s, p);
    assert RoundStep(s, s', s.acceptors[p].accepted.n);
    if e.HandleAccept? {
      assert PreparedOk(s, (e.p, e.n));
      RoundsArePositive(m, s, e);
    }
  }

  lemma VotesKept(m: set<Process>, s: State, e: Event, v: (Process, int))
    requires Inv(m, s) && Enabled(m, s, e) && PrepareFirst(s, e) && Extends(s, Next(m, s, e))
    requires v in Next(m, s, e).votes
    ensures VoteOk(m, Next(m, s, e), v)
  {
    var s' := Next(m, s, e);
    assert AcceptorStep(s, s', v.0) && RoundStep(s, s', v.1);
    if v in s.votes {
      assert VoteOk(m, s, v);
      assert AcceptorOk(s, v.0);
    } else {
      assert AcceptorOk(s, v.0);
      assert e.HandleAccept? && v == (e.p, e.n);
      assert PreparedOk(s, (e.p, e.n));
      RoundsArePositive(m, s, e);
    }
  }

  /** An accepted proposal number is positive: its value came with a quorum and a smaller base. */
  lemma RoundsArePositive(m: set<Process>, s: State, e: Event)
    requires Inv(m, s) && e.HandleAccept? && Enabled(m, s, e)
    ensures e.n > 0
  {
    assert SafeOk(m, s, e.n);
  }

  lemma PreparedKept(m: set<Process>, s: State, e: Event, v: (Process, int))
    requires Inv(m, s) && Enabled(m, s, e) && Extends(s, Next(m, s, e)) && v in Next(m, s, e).prepared
    ensures PreparedOk(Next(m, s, e), v)
  {
    assert AcceptorStep(s, Next(m, s, e), v.0);
    if v in s.prepared { assert PreparedOk(s, v); }
  }

  lemma ReplyStays(m: set<Process>, s: State, s': State, n: int, p: Process)
    requires Inv(m, s) && Extends(s, s') && n in s.rounds && p in s.rounds[n].replies
    requires n in s'.rounds && p in s'.rounds[n].replies && s'.rounds[n].replies[p] == s.rounds[n].replies[p]
    ensures ReplyOk(m, s', n, p)
  {
    assert RepliesOk(m, s, n);
    assert ReplyOk(m, s, n, p);
    var r := s.rounds[n].replies[p];
    NoVotesStays(s, s', p, r.n, n);
    assert AcceptorStep(s, s', p) && RoundStep(s, s', r.n);
  }

  lemma NewReply(m: set<Process>, s: State, e: Event)
    requires Inv(m, s) && e.HandlePrepare? && Enabled(m, s, e) && e.n > s.acceptors[e.p].promise
    ensures ReplyOk(m, Next(m, s, e), e.n, e.p)
  {
    var s' := Next(m, s, e);
    var a := s.acceptors[e.p].accepted;
    assert AcceptorOk(s, e.p);
    forall k | a.n < k < e.n
      ensures NoVote(s', e.p, k)
    {
      assert (e.p, k) in s.votes ==> VoteOk(m, s, (e.p, k));
    }
  }

  lemma RepliesKept(m: set<Process>, s: State, e: Event, n: int)
    requires Inv(m, s) && Enabled(m, s, e) && Extends(s, Next(m, s, e)) && n in Next(m, s, e).rounds
    ensures RepliesOk(m, Next(m, s, e), n)
  {
    var s' := Next(m, s, e);
    forall p | p in s'.rounds[n].replies
      ensures ReplyOk(m, s', n, p)
    {
      if e.HandlePrepare? && e.n == n && e.p == p && e.n > s.acceptors[e.p].promise {
        NewReply(m, s, e);
      } else {
        ReplyStays(m, s, s', n, p);
      }
    }
  }

  lemma ReplyAt(m: set<Process>, s: State, e: Event, p: Process)
    requires Inv(m, s) && e.FinishPrepare? && Enabled(m, s, e) && p in e.order
    ensures ReplyOk(m, s, e.n, p)
    ensures s.rounds[e.n].replies[p] in Replies(e.order, s.rounds[e.n].replies)
  {
    assert RepliesOk(m, s, e.n);
    var i :| 0 <= i < |e.order| && e.order[i] == p;
    assert Replies(e.order, s.rounds[e.n].replies)[i] == s.rounds[e.n].replies[p];
  }

  /** The highest reply is either nothing at all or the proposal of an earlier round. */
  lemma TopOk(m: set<Process>, s: State, e: Event)
    requires Inv(m, s) && e.FinishPrepare? && Enabled(m, s, e)
    ensures var top := Highest(Replies(e.order, s.rounds[e.n].replies), NOTHING);
            && 0 <= top.n && (top.n == 0 <==> top.value.None?)
            && (e.order != [] ==> top.n < e.n)
            && (top.n > 0 ==> top.n in s.rounds && s.rounds[top.n].value == top.value)
  {
    var replies := Replies(e.order, s.rounds[e.n].replies);
    var top := Highest(replies, NOTHING);
    if top in replies {
      var i :| 0 <= i < |replies| && replies[i] == top;
      ReplyAt(m, s, e, e.order[i]);
    } else if e.order != [] {
      ReplyAt(m, s, e, e.order[0]);
    }
  }

  lemma NewValueSafe(m: set<Process>, s: State, e: Event)
    requires Inv(m, s) && e.FinishPrepare? && Enabled(m, s, e) && Extends(s, Next(m, s, e))
    ensures SafeOk(m, Next(m, s, e), e.n)
  {
    var s' := Next(m, s, e);
    var r := s.rounds[e.n];
    var replies := Replies(e.order, r.replies);
    var top := Highest(replies, NOTHING);
    QuorumSizeIsMajority(|m|);
    DistinctCardinality(e.order);
    TopOk(m, s, e);
    forall p | p in e.order
      ensures p in m && p in s'.acceptors && e.n <= s'.acceptors[p].promise && NoVotesBetween(s', p, top.n, e.n)
    {
      ReplyAt(m, s, e, p);
      NoVotesStays(s, s', p, r.replies[p].n, e.n);
      assert AcceptorStep(s, s', p);
      forall k | top.n < k < e.n ensures NoVote(s', p, k) { }
    }
  }

  lemma SafeKept(m: set<Process>, s: State, e: Event, n: int)
    requires Inv(m, s) && Enabled(m, s, e) && Extends(s, Next(m, s, e)) && n in Next(m, s, e).rounds
    ensures SafeOk(m, Next(m, s, e), n)
  {
    var s' := Next(m, s, e);
    if e.FinishPrepare? && e.n == n {
      NewValueSafe(m, s, e);
    } else if n in s.rounds && s.rounds[n].value.Some? {
      assert SafeOk(m, s, n) && RoundStep(s, s', n) && RoundStep(s, s', s.rounds[n].base);
      forall p | p in s.rounds[n].quorum
        ensures p in s'.acceptors && n <= s'.acceptors[p].promise && NoVotesBetween(s', p, s.rounds[n].base, n)
      {
        assert NoVotesBetween(s, p, s.rounds[n].base, n);
        NoVotesStays(s, s', p, s.rounds[n].base, n);
        assert AcceptorStep(s, s', p);
      }
    }
  }

  lemma StepInv(m: set<Process>, s: State, e: Event)
    requires Inv(m, s) && Enabled(m, s, e) && PrepareFirst(s, e)
    ensures Inv(m, Next(m, s, e))
  {
    StepExtends(m, s, e);
    var s' := Next(m, s, e);
    forall p | p in m ensures AcceptorOk(s', p) { AcceptorsKept(m, s, e, p); }
    forall v | v in s'.votes ensures VoteOk(m, s', v) { VotesKept(m, s, e, v); }
    forall v | v in s'.prepared ensures PreparedOk(s', v) { PreparedKept(m, s, e, v); }
    forall n | n in s'.rounds ensures RepliesOk(m, s', n) { RepliesKept(m, s, e, n); }
    forall n | n in s'.rounds ensures SafeOk(m, s', n) { SafeKept(m, s, e, n); }
  }

  // ----- agreement -----

  /** Once a quorum has accepted round a, every later round with a value has the same value. */
  lemma {:induction false} LaterRoundsAgree(m: set<Process>, s: State, a: int, q: set<Process>, b: int)
    requires Inv(m, s) && IsQuorum(q, m) && VotedBy(s, q, a)
    requires b in s.rounds && s.rounds[b].value.Some? && a <= b
    ensures a in s.rounds && s.rounds[a].value == s.rounds[b].value
    decreases b - a
  {
    var x := QuorumNonEmpty(m, q);
    assert VoteOk(m, s, (x, a));
    if a < b {
      assert SafeOk(m, s, b);
      var p := QuorumsIntersect(m, q, s.rounds[b].quorum);
      assert NoVotesBetween(s, p, s.rounds[b].base, b);
      assert a > s.rounds[b].base ==> NoVote(s, p, a);
      LaterRoundsAgree(m, s, a, q, s.rounds[b].base);
    }
  }

  lemma {:induction false} RunInv(m: set<Process>, tr: seq<State>, es: seq<Event>, i: nat)
    requires Run(m, tr, es) && i < |tr| && forall j | 0 <= j < |es| :: PrepareFirst(tr[j], es[j])
    ensures Inv(m, tr[i])
  {
    if i > 0 {
      RunInv(m, tr, es, i - 1);
      StepInv(m, tr[i - 1], es[i - 1]);
    }
  }

  /** Any two values accepted by a quorum are equal. */
  lemma Agreement(m: set<Process>, tr: seq<State>, es: seq<Event>, i: nat, a: int, b: int)
    requires Run(m, tr, es) && i < |tr| && forall j | 0 <= j < |es| :: PrepareFirst(tr[j], es[j])
    requires Chosen(m, tr[i], a) && Chosen(m, tr[i], b)
    ensures a in tr[i].rounds && b in tr[i].rounds
    ensures tr[i].rounds[a].value.Some? && tr[i].rounds[a].value == tr[i].rounds[b].value
  {
    RunInv(m, tr, es, i);
    var s := tr[i];
    var qa :| IsQuorum(qa, m) && VotedBy(s, qa, a);
    var qb :| IsQuorum(qb, m) && VotedBy(s, qb, b);
    var x := QuorumNonEmpty(m, qa);
    var y := QuorumNonEmpty(m, qb);
    assert VoteOk(m, s, (x, a)) && VoteOk(m, s, (y, b));
    if a <= b { LaterRoundsAgree(m, s, a, qa, b); } else { LaterRoundsAgree(m, s, b, qb, a); }
  }
}
