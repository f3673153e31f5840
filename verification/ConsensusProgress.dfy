/**
 The instance is never stuck: from every reachable state a round with an unused number above the
 promises of some quorum can be accepted by that quorum, and any learner can then deliver. The
 other acceptors and all other proposers may have crashed.
 */
module ConsensusProgress {
  import opened Views
  import opened Consensus
  import opened Runs
  import opened ConsensusLeader

  ghost function Step(m: set<Process>): (State, Event, State) -> bool {
    (s: State, e: Event, t: State) => Enabled(m, s, e) && Next(m, s, e) == t
  }

  /** Nothing has been sent for the number n, and every acceptor is there. */
  ghost predicate Unused(m: set<Process>, s: State, n: int) {
    && m <= s.acceptors.Keys
    && (n !in s.rounds ==>
          && (forall p :: (p, n) !in s.prepared) && (forall p :: (p, n) !in s.handled)
          && (forall p :: (p, n) !in s.votes)
          && (forall l, p | l in s.learners :: (p, n) !in s.learners[l].seen))
  }

  lemma {:induction false} NumbersStayUnused(m: set<Process>, tr: seq<State>, es: seq<Event>, i: nat, n: int)
    requires Run(m, tr, es) && i < |tr|
    ensures Unused(m, tr[i], n)
  {
    if i > 0 {
      NumbersStayUnused(m, tr, es, i - 1, n);
      UnusedStep(m, tr[i - 1], es[i - 1], n);
    }
  }

  lemma UnusedStep(m: set<Process>, s: State, e: Event, n: int)
    requires Unused(m, s, n) && Enabled(m, s, e) && (e.HandleLearn? ==> e.n != n || n in s.rounds)
    ensures Unused(m, Next(m, s, e), n)
  {
  }

  // ----- the first phase -----

  /** Round n of s has been promised by `done`, and the others of q still can. */
  ghost predicate Promising(m: set<Process>, s0: State, s: State, n: int, default: ViewSeq, q: set<Process>,
                            done: set<Process>) {
    && q <= m <= s.acceptors.Keys && s.learners == s0.learners
    && n in s.rounds && s.rounds[n].value.None? && s.rounds[n].default == default
    && (forall p :: (p, n) !in s.handled)
    && (forall p | p in q ::
          p in s0.acceptors && p in s.acceptors && s.acceptors[p].accepted == s0.acceptors[p].accepted)
    && (forall p | p in q && p in done ::
          p in s.acceptors && s.acceptors[p].promise == n && p in s.rounds[n].replies
          && s.rounds[n].replies[p] == s0.acceptors[p].accepted)
    && (forall p | p in q && p !in done :: p in s.acceptors && s.acceptors[p].promise < n && (p, n) !in s.prepared)
  }

  lemma PromiseTurn(m: set<Process>, s0: State, s: State, n: int, default: ViewSeq, q: set<Process>,
                    done: set<Process>, p: Process) returns (t: State)
    requires Promising(m, s0, s, n, default, q, done) && q <= m && p in q && p !in done
    ensures Step(m)(s, HandlePrepare(p, n), t) && Promising(m, s0, t, n, default, q, done + {p})
  {
    t := Next(m, s, HandlePrepare(p, n));
  }

  lemma PromiseAll(m: set<Process>, s0: State, s: State, n: int, default: ViewSeq, q: set<Process>) returns (t: State)
    requires Promising(m, s0, s, n, default, q, {}) && q <= m
    ensures Reaches(Step(m), s, t) && Promising(m, s0, t, n, default, q, q)
  {
    var inv := (u: State, done: set<Process>) => Promising(m, s0, u, n, default, q, done);
    forall u, done, p | inv(u, done) && done <= q && p in q && p !in done
      ensures Turn(Step(m), inv, u, done, p)
    {
      var x := PromiseTurn(m, s0, u, n, default, q, done, p);
    }
    t := EachInTurn(Step(m), inv, s, q, q);
  }

  /** The value of a round that q promised in s: the highest-numbered one accepted in q, if any. */
  ghost predicate PicksUp(s: State, q: set<Process>, default: ViewSeq, value: Option<ViewSeq>) {
    && q <= s.acceptors.Keys && value.Some?
    && ((forall p | p in q :: s.acceptors[p].accepted == NOTHING) ==> value == Some(default))
    && ((exists p :: p in q && s.acceptors[p].accepted.n > 0) ==>
          exists p :: p in q && (forall p' | p' in q :: s.acceptors[p'].accepted.n <= s.acceptors[p].accepted.n)
                      && value == if s.acceptors[p].accepted.value.Some? then s.acceptors[p].accepted.value
                                  else Some(default))
  }

  /** Round n has its value and has been accepted by `done`, and the others of q still can. */
  ghost predicate Voting(m: set<Process>, s0: State, s: State, n: int, value: Option<ViewSeq>, q: set<Process>,
                         done: set<Process>) {
    && q <= m <= s.acceptors.Keys && s.learners == s0.learners
    && n in s.rounds && s.rounds[n].value == value && value.Some?
    && (forall p | p in q && p in done :: (p, n) in s.votes)
    && (forall p | p in q && p !in done :: p in s.acceptors && s.acceptors[p].promise <= n && (p, n) !in s.handled)
  }

  lemma HighestPicks(s0: State, s: State, n: int, default: ViewSeq, q: set<Process>, order: seq<Process>)
    requires n in s.rounds && AsSet(order) == q && q <= s0.acceptors.Keys
    requires forall p | p in q :: p in s.rounds[n].replies && s.rounds[n].replies[p] == s0.acceptors[p].accepted
    ensures forall p | p in order :: p in AsSet(order)
    ensures var top := Highest(Replies(order, s.rounds[n].replies), NOTHING);
            PicksUp(s0, q, default, if top.value.None? then Some(default) else top.value)
  {
    forall p | p in order ensures p in q { assert p in AsSet(order); }
    var replies := Replies(order, s.rounds[n].replies);
    var top := Highest(replies, NOTHING);
    forall p | p in q ensures s0.acceptors[p].accepted.n <= top.n {
      assert p in AsSet(order);
      var i :| 0 <= i < |order| && order[i] == p;
      assert replies[i] in replies;
    }
    if top != NOTHING {
      var i :| 0 <= i < |replies| && replies[i] == top;
      assert order[i] in order && s0.acceptors[order[i]].accepted == top;
    }
  }

  lemma ValueIsPicked(m: set<Process>, s0: State, s: State, n: int, default: ViewSeq, q: set<Process>)
    returns (t: State)
    requires Promising(m, s0, s, n, default, q, q) && q <= m && |q| == QuorumSize(|m|)
    ensures Reaches(Step(m), s, t) && n in t.rounds && PicksUp(s0, q, default, t.rounds[n].value)
    ensures Voting(m, s0, t, n, t.rounds[n].value, q, {})
  {
    var order := Enumerate(q);
    HighestPicks(s0, s, n, default, q, order);
    t := Next(m, s, FinishPrepare(n, order));
    Once(Step(m), s, FinishPrepare(n, order), t);
  }

  // ----- the second phase -----

  lemma VoteTurn(m: set<Process>, s0: State, s: State, n: int, value: Option<ViewSeq>, q: set<Process>,
                 done: set<Process>, p: Process) returns (t: State)
    requires Voting(m, s0, s, n, value, q, done) && q <= m && p in q && p !in done
    ensures Step(m)(s, HandleAccept(p, n), t) && Voting(m, s0, t, n, value, q, done + {p})
  {
    t := Next(m, s, HandleAccept(p, n));
  }

  lemma VoteAll(m: set<Process>, s0: State, s: State, n: int, value: Option<ViewSeq>, q: set<Process>)
    returns (t: State)
    requires Voting(m, s0, s, n, value, q, {}) && q <= m
    ensures Reaches(Step(m), s, t) && Voting(m, s0, t, n, value, q, q)
  {
    var inv := (u: State, done: set<Process>) => Voting(m, s0, u, n, value, q, done);
    forall u, done, p | inv(u, done) && done <= q && p in q && p !in done
      ensures Turn(Step(m), inv, u, done, p)
    {
      var x := VoteTurn(m, s0, u, n, value, q, done, p);
    }
    t := EachInTurn(Step(m), inv, s, q, q);
  }

  /** A round with an unused number above the promises of the quorum q can be accepted by q, with
      the value that q has accepted last, or the proposer's own if it has accepted none. */
  lemma RoundsCanSucceed(m: set<Process>, tr: seq<State>, es: seq<Event>, i: nat, n: int, default: ViewSeq,
                         q: set<Process>) returns (t: State)
    requires Run(m, tr, es) && i < |tr| && n > 0 && n !in tr[i].rounds
    requires q <= m && |q| == QuorumSize(|m|)
    requires forall p | p in q :: p in tr[i].acceptors && tr[i].acceptors[p].promise < n
    ensures Reaches(Step(m), tr[i], t) && VotedBy(t, q, n) && t.learners == tr[i].learners
    ensures n in t.rounds && PicksUp(tr[i], q, default, t.rounds[n].value)
  {
    var s := tr[i];
    NumbersStayUnused(m, tr, es, i, n);
    var s1 := Next(m, s, Start(n, default));
    Once(Step(m), s, Start(n, default), s1);
    var s2 := PromiseAll(m, s, s1, n, default, q);
    var s3 := ValueIsPicked(m, s, s2, n, default, q);
    t := VoteAll(m, s, s3, n, s3.rounds[n].value, q);
    Concat(Step(m), s, s1, s2);
    Concat(Step(m), s, s2, s3);
    Concat(Step(m), s, s3, t);
  }

  // ----- learning -----

  ghost predicate Learning(m: set<Process>, s0: State, s: State, n: int, l: Process, done: set<Process>) {
    && s.votes == s0.votes && s.rounds == s0.rounds
    && l in s0.learners && l in s.learners && LearnerCounts(m, s.learners[l])
    && s.learners[l].seen == s0.learners[l].seen + set p | p in done :: (p, n)
  }

  lemma LearnTurn(m: set<Process>, s0: State, s: State, n: int, l: Process, done: set<Process>, p: Process)
    returns (t: State)
    requires Learning(m, s0, s, n, l, done) && (p, n) in s0.votes && p !in done && (p, n) !in s0.learners[l].seen
    requires n in s0.rounds && s0.rounds[n].value.Some?
    ensures Step(m)(s, HandleLearn(l, p, n), t) && Learning(m, s0, t, n, l, done + {p})
  {
    var e := HandleLearn(l, p, n);
    t := Next(m, s, e);
    assert (set x | x in done + {p} :: (x, n)) == (set x | x in done :: (x, n)) + {(p, n)};
    CountsOneMore(m, s.learners[l], (p, n), s.rounds[n].value.value);
  }

  lemma CountsOneMore(m: set<Process>, x: Learner, vote: (Process, int), value: ViewSeq)
    requires LearnerCounts(m, x) && vote !in x.seen
    ensures LearnerCounts(m, OnLearn(x, vote, value, QuorumSize(|m|)))
  {
  }

  lemma LearnAll(m: set<Process>, s: State, n: int, l: Process, q: set<Process>) returns (t: State)
    requires Learning(m, s, s, n, l, {}) && n in s.rounds && s.rounds[n].value.Some?
    requires forall p | p in q :: (p, n) in s.votes && (p, n) !in s.learners[l].seen
    ensures Reaches(Step(m), s, t) && Learning(m, s, t, n, l, q)
  {
    var inv := (u: State, done: set<Process>) => Learning(m, s, u, n, l, done);
    forall u, done, p | inv(u, done) && done <= q && p in q && p !in done
      ensures Turn(Step(m), inv, u, done, p)
    {
      var x := LearnTurn(m, s, u, n, l, done, p);
    }
    t := EachInTurn(Step(m), inv, s, q, q);
  }

  lemma {:induction false} PairsCardinality(q: set<Process>, n: int)
    ensures |set p | p in q :: (p, n)| == |q|
    decreases |q|
  {
    if q == {} {
      assert (set p | p in q :: (p, n)) == {};
    } else {
      var p :| p in q;
      PairsCardinality(q - {p}, n);
      assert (set x | x in q :: (x, n)) == (set x | x in q - {p} :: (x, n)) + {(p, n)};
    }
  }

  /** And then any learner can deliver. */
  lemma LearnersCanDeliver(m: set<Process>, tr: seq<State>, es: seq<Event>, i: nat, n: int, default: ViewSeq,
                           q: set<Process>, l: Process) returns (t: State)
    requires Run(m, tr, es) && i < |tr| && n > 0 && n !in tr[i].rounds
    requires q <= m && |q| == QuorumSize(|m|)
    requires forall p | p in q :: p in tr[i].acceptors && tr[i].acceptors[p].promise < n
    requires l in tr[i].learners
    ensures Reaches(Step(m), tr[i], t) && VotedBy(t, q, n)
    ensures l in t.learners && t.learners[l].delivered.Some?
  {
    var s := RoundsCanSucceed(m, tr, es, i, n, default, q);
    NumbersStayUnused(m, tr, es, i, n);
    DeliversIffQuorumSeen(m, tr, es, i, l);
    assert s.learners[l].seen + (set p: Process | p in {} :: (p, n)) == s.learners[l].seen;
    forall p | p in q ensures (p, n) in s.votes && (p, n) !in s.learners[l].seen { assert (p, n) in s.votes; }
    t := LearnAll(m, s, n, l, q);
    Concat(Step(m), tr[i], s, t);
    PairsCardinality(q, n);
    SubsetCardinality(set p | p in q :: (p, n), t.learners[l].seen);
    assert VotedBy(t, q, n);
  }
}
