/**
 One instance of the Paxos of pkg/consensus/consensus.go: acceptors, any number of proposers
 with distinct proposal numbers, and learners that count Learn messages without looking at the
 proposal they belong to.

 Every request may be lost or delayed for ever and is handled at most once. A proposer whose
 round fails ends its process, which here means that the round takes no further step.
 */
module Consensus {
  import opened Views

  /** A proposal as an acceptor stores it; number 0 and no value before the first one. */
  datatype Proposal = Proposal(n: int, value: Option<ViewSeq>)

  datatype Acceptor = Acceptor(accepted: Proposal, promise: int)

  /** A round: the proposer's default, the successful Prepare replies, and the value of its Accept
      requests. History: when it started and the votes cast by then, the quorum its value came
      from and the number of the accepted proposal it took it from (0 for the default). */
  datatype Round = Round(
    default: ViewSeq, replies: map<Process, Proposal>, value: Option<ViewSeq>,
    at: nat, prior: set<(Process, int)>, quorum: set<Process>, base: int)

  /** A learner: its counter, what it counted, and what it delivered. */
  datatype Learner = Learner(count: nat, seen: set<(Process, int)>, delivered: Option<ViewSeq>)

  datatype State = State(
    clock: nat,
    acceptors: map<Process, Acceptor>,
    rounds: map<int, Round>,
    prepared: set<(Process, int)>,        // Prepare requests handled
    handled: set<(Process, int)>,         // Accept requests handled
    votes: set<(Process, int)>,           // Accept requests that succeeded
    learners: map<Process, Learner>)

  datatype Event =
    | Start(n: int, default: ViewSeq)
    | HandlePrepare(p: Process, n: int)
    | FinishPrepare(n: int, order: seq<Process>)
    | HandleAccept(p: Process, n: int)
    | HandleLearn(learner: Process, p: Process, n: int)

  // ----- the pieces of the source the steps are made of -----

  const NOTHING := Proposal(0, None)

  /** A Prepare request: the new acceptor and, unless the number is too old, the reply. */
  function OnPrepare(a: Acceptor, n: int): (Acceptor, Option<Proposal>) {
    if n > a.promise then (a.(promise := n), Some(a.accepted)) else (a, None)
  }

  /** An Accept request: the new acceptor and whether it accepted. The promise is not raised. */
  function OnAccept(a: Acceptor, proposal: Proposal): (Acceptor, bool) {
    if proposal.n >= a.promise then (a.(accepted := proposal), true) else (a, false)
  }

  /** Keep the first of the highest-numbered proposals above `best`. */
  function Highest(replies: seq<Proposal>, best: Proposal): (r: Proposal)
    ensures r == best || r in replies
    ensures best.n <= r.n
    ensures forall x | x in replies :: x.n <= r.n
  {
    if replies == [] then best
    else
      assert forall x | x in replies :: x == replies[0] || x in replies[1..];
      Highest(replies[1..], if replies[0].n > best.n then replies[0] else best)
  }

  ghost predicate FirstAt(replies: seq<Proposal>, i: nat, r: Proposal) {
    i < |replies| && replies[i] == r && forall j | 0 <= j < i :: replies[j].n < r.n
  }

  /** Among equal highest numbers the first reply wins. */
  lemma {:induction false} HighestIsFirst(replies: seq<Proposal>, best: Proposal)
    ensures var r := Highest(replies, best);
            r != best ==> r.n > best.n && exists i: nat :: FirstAt(replies, i, r)
  {
    if replies != [] {
      var best' := if replies[0].n > best.n then replies[0] else best;
      var r := Highest(replies[1..], best');
      HighestIsFirst(replies[1..], best');
      if r != best' {
        var i: nat :| FirstAt(replies[1..], i, r);
        forall j | 0 <= j < i + 1 ensures replies[j].n < r.n {
          if j > 0 { assert replies[j] == replies[1..][j - 1]; }
        }
        assert FirstAt(replies, i + 1, r);
      } else if r != best {
        assert FirstAt(replies, 0, r);
      }
    }
  }

  /** A Learn request: the counter does not separate proposals. */
  function OnLearn(l: Learner, vote: (Process, int), value: ViewSeq, quorumSize: nat): Learner {
    Learner(l.count + 1, l.seen + {vote},
            if l.count + 1 == quorumSize then Some(value) else l.delivered)
  }

  function Replies(order: seq<Process>, replies: map<Process, Proposal>): seq<Proposal>
    requires forall p | p in order :: p in replies
  {
    seq(|order|, i requires 0 <= i < |order| => replies[order[i]])
  }

  // ----- steps; m is the member set of the associated view -----

  ghost predicate Init(m: set<Process>, s: State) {
    && s.clock == 0 && s.rounds == map[] && s.prepared == {} && s.handled == {} && s.votes == {}
    && (forall p | p in m :: p in s.acceptors && s.acceptors[p] == Acceptor(NOTHING, 0))
    && (forall l | l in s.learners :: s.learners[l] == Learner(0, {}, None))
  }

  predicate Enabled(m: set<Process>, s: State, e: Event) {
    match e
    case Start(n, default) => n > 0 && n !in s.rounds
    case HandlePrepare(p, n) => p in m && p in s.acceptors && n in s.rounds && (p, n) !in s.prepared
    case FinishPrepare(n, order) =>
      && n in s.rounds && s.rounds[n].value.None?
      && Distinct(order) && (forall p | p in order :: p in s.rounds[n].replies)
      && |order| == QuorumSize(|m|)
    case HandleAccept(p, n) =>
      p in m && p in s.acceptors && n in s.rounds && s.rounds[n].value.Some? && (p, n) !in s.handled
    case HandleLearn(l, p, n) =>
      && l in s.learners && (p, n) in s.votes && (p, n) !in s.learners[l].seen
      && n in s.rounds && s.rounds[n].value.Some?
  }

  function Next(m: set<Process>, s: State, e: Event): State
    requires Enabled(m, s, e)
  {
    var t := s.(clock := s.clock + 1);
    match e
    case Start(n, default) =>
      t.(rounds := s.rounds[n := Round(default, map[], None, s.clock, s.votes, {}, 0)])
    case HandlePrepare(p, n) =>
      var (a, reply) := OnPrepare(s.acceptors[p], n);
      var r := s.rounds[n];
      t.(acceptors := s.acceptors[p := a],
         prepared := s.prepared + {(p, n)},
         rounds := if reply.Some? then s.rounds[n := r.(replies := r.replies[p := reply.value])] else s.rounds)
    case FinishPrepare(n, order) =>
      var r := s.rounds[n];
      var top := Highest(Replies(order, r.replies), NOTHING);
      t.(rounds := s.rounds[n := r.(value := if top.value.None? then Some(r.default) else top.value,
                                    quorum := AsSet(order), base := top.n)])
    case HandleAccept(p, n) =>
      var (a, ok) := OnAccept(s.acceptors[p], Proposal(n, s.rounds[n].value));
      t.(acceptors := s.acceptors[p := a],
         handled := s.handled + {(p, n)},
         votes := if ok then s.votes + {(p, n)} else s.votes)
    case HandleLearn(l, p, n) =>
      t.(learners := s.learners[l := OnLearn(s.learners[l], (p, n), s.rounds[n].value.value, QuorumSize(|m|))])
  }

  ghost predicate Run(m: set<Process>, tr: seq<State>, es: seq<Event>) {
    && |tr| == |es| + 1
    && Init(m, tr[0])
    && forall i | 0 <= i < |es| :: Enabled(m, tr[i], es[i]) && tr[i + 1] == Next(m, tr[i], es[i])
  }

  /** A quorum has accepted the proposal numbered n. */
  ghost predicate VotedBy(s: State, q: set<Process>, n: int) {
    forall p | p in q :: (p, n) in s.votes
  }

  ghost predicate Chosen(m: set<Process>, s: State, n: int) {
    exists q :: IsQuorum(q, m) && VotedBy(s, q, n)
  }

  // ----- the two hypotheses on runs -----

  /** An acceptor handles Accept(n) only after it has handled Prepare(n). */
  predicate PrepareFirst(s: State, e: Event) {
    e.HandleAccept? ==> (e.p, e.n) in s.prepared
  }

  /** One leader runs its rounds one after another and a failed round ends its process: a round
      starts only when every earlier round has been accepted by a quorum. */
  ghost predicate OneLeader(m: set<Process>, s: State, e: Event) {
    e.Start? ==> forall n | n in s.rounds :: Chosen(m, s, n)
  }
}
