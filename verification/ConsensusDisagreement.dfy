/**
 Many-proposer agreement depends on the size of the view: without a hypothesis on the order of
 requests it holds in every run if and only if any three quorums share a process, that is for
 0, 1, 2 and 4 members. In every other view an acceptor that accepts a round it has not promised
 can later accept a smaller one, and so forget a value that was chosen.
 */
module ConsensusDisagreement {
  import opened Views
  import opened Consensus
  import opened ConsensusTriples
  import opened Runs
  import opened Addresses
  import opened ConsensusWorker

  /** The number is one that a member draws at some call. */
  ghost predicate DrawnNumber(m: set<Process>, n: int) {
    exists p, k: nat :: p in m && n == Drawn(|m|, Position(m, p), k)
  }

  /** A round starts with a drawn number and proposes one of the sequences `allowed`. */
  ghost predicate Real(m: set<Process>, allowed: iset<ViewSeq>, e: Event) {
    e.Start? ==> e.default in allowed && DrawnNumber(m, e.n)
  }

  ghost function Step(m: set<Process>, allowed: iset<ViewSeq>): (State, Event, State) -> bool {
    (s: State, e: Event, t: State) => Enabled(m, s, e) && Next(m, s, e) == t && Real(m, allowed, e)
  }

  // ----- many acceptors handle one request -----

  /** The acceptors ps have answered Prepare(n). */
  function Promised(s: State, n: int, ps: set<Process>): State
    requires n in s.rounds && ps <= s.acceptors.Keys
  {
    var r := s.rounds[n];
    var replies := map p | p in r.replies.Keys + ps :: if p in ps then s.acceptors[p].accepted else r.replies[p];
    s.(clock := s.clock + |ps|,
       acceptors := map p | p in s.acceptors ::
                      if p in ps then s.acceptors[p].(promise := n) else s.acceptors[p],
       prepared := s.prepared + set p | p in ps :: (p, n),
       rounds := s.rounds[n := r.(replies := replies)])
  }

  lemma PromiseNone(s: State, n: int)
    requires n in s.rounds
    ensures Promised(s, n, {}) == s
  {
    var t := Promised(s, n, {});
    assert t.acceptors == s.acceptors;
    assert t.rounds[n].replies == s.rounds[n].replies;
    assert t.rounds == s.rounds;
  }

  lemma PromiseOneMore(m: set<Process>, s: State, n: int, ps: set<Process>, p: Process)
    requires n in s.rounds && ps + {p} <= m && m <= s.acceptors.Keys && p !in ps
    requires s.acceptors[p].promise < n && (p, n) !in s.prepared
    ensures var t := Promised(s, n, ps);
            Enabled(m, t, HandlePrepare(p, n)) && Next(m, t, HandlePrepare(p, n)) == Promised(s, n, ps + {p})
  {
    var t, u := Promised(s, n, ps), Promised(s, n, ps + {p});
    var t' := Next(m, t, HandlePrepare(p, n));
    assert t'.acceptors == u.acceptors;
    assert t'.rounds[n].replies == u.rounds[n].replies;
    assert t'.rounds == u.rounds;
    assert t'.prepared == u.prepared;
  }

  lemma {:induction false} PromiseAll(m: set<Process>, allowed: iset<ViewSeq>, s: State, n: int, ps: set<Process>)
    requires n in s.rounds && ps <= m <= s.acceptors.Keys
    requires forall p | p in ps :: s.acceptors[p].promise < n && (p, n) !in s.prepared
    ensures Reaches(Step(m, allowed), s, Promised(s, n, ps))
    decreases |ps|
  {
    if ps == {} {
      PromiseNone(s, n);
      Stay(Step(m, allowed), s);
    } else {
      var p :| p in ps;
      var rest := ps - {p};
      PromiseAll(m, allowed, s, n, rest);
      PromiseOneMore(m, s, n, rest, p);
      Go(Step(m, allowed), s, Promised(s, n, rest), HandlePrepare(p, n), Promised(s, n, rest + {p}));
      assert rest + {p} == ps;
    }
  }

  /** The acceptors ps have accepted round n. */
  function Voted(s: State, n: int, ps: set<Process>): State
    requires n in s.rounds && ps <= s.acceptors.Keys
  {
    var pairs := set p | p in ps :: (p, n);
    s.(clock := s.clock + |ps|,
       acceptors := map p | p in s.acceptors ::
                      if p in ps then s.acceptors[p].(accepted := Proposal(n, s.rounds[n].value)) else s.acceptors[p],
       handled := s.handled + pairs,
       votes := s.votes + pairs)
  }

  lemma VoteOneMore(m: set<Process>, s: State, n: int, ps: set<Process>, p: Process)
    requires n in s.rounds && s.rounds[n].value.Some? && ps + {p} <= m && m <= s.acceptors.Keys && p !in ps
    requires s.acceptors[p].promise <= n && (p, n) !in s.handled
    ensures var t := Voted(s, n, ps);
            Enabled(m, t, HandleAccept(p, n)) && Next(m, t, HandleAccept(p, n)) == Voted(s, n, ps + {p})
  {
    var t, u := Voted(s, n, ps), Voted(s, n, ps + {p});
    var t' := Next(m, t, HandleAccept(p, n));
    assert t'.acceptors == u.acceptors;
    assert t'.handled == u.handled && t'.votes == u.votes;
  }

  lemma {:induction false} VoteAll(m: set<Process>, allowed: iset<ViewSeq>, s: State, n: int, ps: set<Process>)
    requires n in s.rounds && s.rounds[n].value.Some? && ps <= m <= s.acceptors.Keys
    requires forall p | p in ps :: s.acceptors[p].promise <= n && (p, n) !in s.handled
    ensures Reaches(Step(m, allowed), s, Voted(s, n, ps))
    decreases |ps|
  {
    if ps == {} {
      assert Voted(s, n, {}).acceptors == s.acceptors;
      assert Voted(s, n, {}) == s;
      Stay(Step(m, allowed), s);
    } else {
      var p :| p in ps;
      var rest := ps - {p};
      VoteAll(m, allowed, s, n, rest);
      VoteOneMore(m, s, n, rest, p);
      Go(Step(m, allowed), s, Voted(s, n, rest), HandleAccept(p, n), Voted(s, n, rest + {p}));
      assert rest + {p} == ps;
    }
  }

  // ----- the end of a first phase -----

  /** Only one proposal y has been accepted by any of the repliers ps, if any. */
  ghost predicate HearsOnly(s: State, n: int, ps: set<Process>, y: Proposal)
    requires n in s.rounds && ps <= s.rounds[n].replies.Keys
  {
    forall p | p in ps :: s.rounds[n].replies[p] == NOTHING || s.rounds[n].replies[p] == y
  }

  lemma HighestHeard(s: State, n: int, order: seq<Process>, y: Proposal)
    requires n in s.rounds && AsSet(order) <= s.rounds[n].replies.Keys && HearsOnly(s, n, AsSet(order), y) && y.n > 0
    requires forall p | p in order :: p in s.rounds[n].replies
    ensures Highest(Replies(order, s.rounds[n].replies), NOTHING)
            == if exists p :: p in order && s.rounds[n].replies[p] == y then y else NOTHING
  {
    var replies := Replies(order, s.rounds[n].replies);
    var top := Highest(replies, NOTHING);
    forall x | x in replies
      ensures x == NOTHING || (x == y && exists p :: p in order && s.rounds[n].replies[p] == y)
    {
      var i :| 0 <= i < |order| && replies[i] == x;
      assert order[i] in AsSet(order);
    }
    if p :| p in order && s.rounds[n].replies[p] == y {
      var i :| 0 <= i < |order| && order[i] == p;
      assert replies[i] == y;
    }
  }

  /** A quorum of replies ends the first phase of round n. */
  lemma Finish(m: set<Process>, allowed: iset<ViewSeq>, s: State, n: int, ps: set<Process>, y: Proposal)
    returns (t: State)
    requires n in s.rounds && s.rounds[n].value.None? && ps <= s.rounds[n].replies.Keys && |ps| == QuorumSize(|m|)
    requires HearsOnly(s, n, ps, y) && y.n > 0 && y.value.Some?
    ensures Reaches(Step(m, allowed), s, t)
    ensures n in t.rounds && t == s.(clock := s.clock + 1, rounds := s.rounds[n := t.rounds[n]])
    ensures t.rounds[n].value == if exists p :: p in ps && s.rounds[n].replies[p] == y then y.value
                                 else Some(s.rounds[n].default)
  {
    var order := Enumerate(ps);
    assert forall p :: p in order <==> p in AsSet(order);
    HighestHeard(s, n, order, y);
    var e := FinishPrepare(n, order);
    assert Enabled(m, s, e) && Real(m, allowed, e);
    t := Next(m, s, e);
    Once(Step(m, allowed), s, e, t);
  }

  // ----- the run -----

  /** Three drawn numbers and two proposals: y in the lowest round, x in the other two. */
  datatype Plan = Plan(low: int, mid: int, high: int, x: ViewSeq, y: ViewSeq)

  ghost predicate PlanOk(m: set<Process>, allowed: iset<ViewSeq>, pl: Plan) {
    && 0 < pl.low < pl.mid < pl.high && pl.x in allowed && pl.y in allowed
    && DrawnNumber(m, pl.low) && DrawnNumber(m, pl.mid) && DrawnNumber(m, pl.high)
  }

  function Fresh(default: ViewSeq, at: nat): Round {
    Round(default, map[], None, at, {}, {}, 0)
  }

  function Begun(m: set<Process>): State {
    State(0, map p | p in m :: Acceptor(NOTHING, 0), map[], {}, {}, {}, map[])
  }

  function Rounds(pl: Plan): map<int, Round> {
    map[pl.low := Fresh(pl.y, 0), pl.mid := Fresh(pl.x, 1), pl.high := Fresh(pl.x, 2)]
  }

  /** Three rounds have started. */
  lemma Starts(m: set<Process>, allowed: iset<ViewSeq>, pl: Plan) returns (t: State)
    requires PlanOk(m, allowed, pl)
    ensures Reaches(Step(m, allowed), Begun(m), t)
    ensures t == Begun(m).(clock := 3, rounds := Rounds(pl))
  {
    var s0 := Begun(m);
    var s1 := s0.(clock := 1, rounds := map[pl.low := Fresh(pl.y, 0)]);
    var s2 := s0.(clock := 2, rounds := map[pl.low := Fresh(pl.y, 0), pl.mid := Fresh(pl.x, 1)]);
    t := s0.(clock := 3, rounds := Rounds(pl));
    assert Next(m, s0, Start(pl.low, pl.y)) == s1;
    Once(Step(m, allowed), s0, Start(pl.low, pl.y), s1);
    assert Next(m, s1, Start(pl.mid, pl.x)) == s2;
    Go(Step(m, allowed), s0, s1, Start(pl.mid, pl.x), s2);
    assert Next(m, s2, Start(pl.high, pl.x)) == t;
    Go(Step(m, allowed), s0, s2, Start(pl.high, pl.x), t);
  }

  /** The acceptors ps, a quorum in number, answer round n, which then gets its value. */
  lemma FirstPhase(m: set<Process>, allowed: iset<ViewSeq>, s: State, n: int, ps: set<Process>, y: Proposal)
    returns (t: State)
    requires n in s.rounds && s.rounds[n].value.None? && s.rounds[n].replies == map[]
    requires ps <= m <= s.acceptors.Keys && |ps| == QuorumSize(|m|) && y.n > 0 && y.value.Some?
    requires forall p | p in ps :: s.acceptors[p].promise < n && (p, n) !in s.prepared
    requires forall p | p in ps :: s.acceptors[p].accepted == NOTHING || s.acceptors[p].accepted == y
    ensures Reaches(Step(m, allowed), s, t)
    ensures t.acceptors.Keys == s.acceptors.Keys && forall p | p in s.acceptors ::
              t.acceptors[p] == if p in ps then s.acceptors[p].(promise := n) else s.acceptors[p]
    ensures forall v | v in t.prepared :: v in s.prepared || v.1 == n
    ensures t.handled == s.handled && t.votes == s.votes
    ensures n in t.rounds && t.rounds == s.rounds[n := t.rounds[n]]
    ensures t.rounds[n].value == if exists p :: p in ps && s.acceptors[p].accepted == y then y.value
                                 else Some(s.rounds[n].default)
  {
    PromiseAll(m, allowed, s, n, ps);
    var u := Promised(s, n, ps);
    assert forall p | p in ps :: u.rounds[n].replies[p] == s.acceptors[p].accepted;
    t := Finish(m, allowed, u, n, ps, y);
    Concat(Step(m, allowed), s, u, t);
  }

  /** The same for a second phase. */
  lemma SecondPhase(m: set<Process>, allowed: iset<ViewSeq>, s: State, n: int, ps: set<Process>) returns (t: State)
    requires n in s.rounds && s.rounds[n].value.Some? && ps <= m <= s.acceptors.Keys
    requires forall p | p in ps :: s.acceptors[p].promise <= n && (p, n) !in s.handled
    ensures Reaches(Step(m, allowed), s, t) && t.rounds == s.rounds && t.prepared == s.prepared
    ensures t.acceptors.Keys == s.acceptors.Keys && forall p | p in s.acceptors ::
              t.acceptors[p] == if p in ps then s.acceptors[p].(accepted := Proposal(n, s.rounds[n].value))
                                else s.acceptors[p]
    ensures forall v | v in t.handled :: v in s.handled || v.1 == n
    ensures s.votes <= t.votes && VotedBy(t, ps, n)
  {
    VoteAll(m, allowed, s, n, ps);
    t := Voted(s, n, ps);
  }

  ghost predicate Untouched(s: State, n: int, default: ViewSeq) {
    && n in s.rounds && s.rounds[n].default == default && s.rounds[n].replies == map[] && s.rounds[n].value.None?
    && forall v | v in s.prepared || v in s.handled :: v.1 != n
  }

  ghost predicate AllHave(m: set<Process>, s: State, a: set<Process>, promise: int) {
    && s.acceptors.Keys == m
    && forall p | p in m :: s.acceptors[p] == Acceptor(NOTHING, if p in a then promise else 0)
  }

  /** A round at the quorum a, among acceptors that have accepted nothing, gets its default value. */
  lemma DefaultRound(m: set<Process>, allowed: iset<ViewSeq>, s: State, a: set<Process>,
                     promise: int, n: int, default: ViewSeq)
    returns (t: State)
    requires a <= m && |a| == QuorumSize(|m|) && AllHave(m, s, a, promise) && 0 <= promise < n
    requires Untouched(s, n, default)
    ensures Reaches(Step(m, allowed), s, t) && AllHave(m, t, a, n) && t.handled == s.handled
    ensures n in t.rounds && t.rounds == s.rounds[n := t.rounds[n]] && t.rounds[n].value == Some(default)
    ensures forall v | v in t.prepared :: v in s.prepared || v.1 == n
  {
    t := FirstPhase(m, allowed, s, n, a, Proposal(1, Some(default)));
  }

  /** The two lower rounds get their default values from the quorum a. */
  lemma TwoRounds(m: set<Process>, allowed: iset<ViewSeq>, pl: Plan, a: set<Process>) returns (t: State)
    requires PlanOk(m, allowed, pl) && a <= m && |a| == QuorumSize(|m|)
    ensures Reaches(Step(m, allowed), Begun(m), t) && AllHave(m, t, a, pl.mid) && t.handled == {}
    ensures {pl.low, pl.mid} <= t.rounds.Keys && Untouched(t, pl.high, pl.x)
    ensures t.rounds[pl.low].value == Some(pl.y) && t.rounds[pl.mid].value == Some(pl.x)
  {
    var s := Starts(m, allowed, pl);
    assert AllHave(m, s, a, 0) && Untouched(s, pl.low, pl.y);
    var u := DefaultRound(m, allowed, s, a, 0, pl.low, pl.y);
    assert Untouched(u, pl.mid, pl.x);
    t := DefaultRound(m, allowed, u, a, pl.low, pl.mid, pl.x);
    Concat(Step(m, allowed), Begun(m), s, u);
    Concat(Step(m, allowed), Begun(m), u, t);
  }

  /** The quorum b accepts the middle round, so its value is chosen; then those of b that never
      promised it accept the lowest one and forget it. */
  lemma ChosenAndForgotten(m: set<Process>, allowed: iset<ViewSeq>, pl: Plan, s: State,
                           a: set<Process>, b: set<Process>)
    returns (t: State)
    requires PlanOk(m, allowed, pl) && b <= m && AllHave(m, s, a, pl.mid) && s.handled == {}
    requires Untouched(s, pl.high, pl.x) && {pl.low, pl.mid} <= s.rounds.Keys
    requires s.rounds[pl.low].value == Some(pl.y) && s.rounds[pl.mid].value == Some(pl.x)
    ensures Reaches(Step(m, allowed), s, t) && t.acceptors.Keys == m && t.rounds == s.rounds
    ensures Untouched(t, pl.high, pl.x)
    ensures forall p | p in m && !(p in a && p in b) ::
              && t.acceptors[p].promise <= pl.mid
              && t.acceptors[p].accepted == if p in b then Proposal(pl.low, Some(pl.y)) else NOTHING
    ensures VotedBy(t, b, pl.mid)
  {
    var u := SecondPhase(m, allowed, s, pl.mid, b);
    t := SecondPhase(m, allowed, u, pl.low, b - a);
    Concat(Step(m, allowed), s, u, t);
  }

  /** The highest round hears of the lowest one only, and the quorum c that answered accepts it. */
  lemma SecondChoice(m: set<Process>, allowed: iset<ViewSeq>, pl: Plan, s: State, c: set<Process>, q: Process)
    returns (t: State)
    requires PlanOk(m, allowed, pl) && c <= m == s.acceptors.Keys && |c| == QuorumSize(|m|) && q in c
    requires Untouched(s, pl.high, pl.x)
    requires forall p | p in c ::
               && s.acceptors[p].promise <= pl.mid
               && (s.acceptors[p].accepted == Proposal(pl.low, Some(pl.y)) || s.acceptors[p].accepted == NOTHING)
    requires s.acceptors[q].accepted == Proposal(pl.low, Some(pl.y))
    ensures Reaches(Step(m, allowed), s, t) && s.votes <= t.votes && VotedBy(t, c, pl.high)
    ensures pl.high in t.rounds && t.rounds == s.rounds[pl.high := t.rounds[pl.high]]
    ensures t.rounds[pl.high].value == Some(pl.y)
  {
    var u := FirstPhase(m, allowed, s, pl.high, c, Proposal(pl.low, Some(pl.y)));
    t := SecondPhase(m, allowed, u, pl.high, c);
    Concat(Step(m, allowed), s, u, t);
  }

  /** Two quorums a and b that overlap as little as possible, a third one outside the overlap, and
      a member of it outside a. */
  lemma ThreeQuorums(m: set<Process>) returns (a: set<Process>, b: set<Process>, c: set<Process>, q: Process)
    requires 3 * QuorumSize(|m|) <= 2 * |m|
    ensures a <= m && b <= m && c <= m && |a| == |b| == |c| == QuorumSize(|m|)
    ensures c * a * b == {} && q in c && q in b && q !in a
  {
    var n, k := |m|, QuorumSize(|m|);
    QuorumSizeIsMajority(n);
    a := Part(m, k);
    var out := m - a;
    assert |out| == n - k;
    var z := Part(a, 2 * k - n);
    b := out + z;
    assert |b| == |out| + |z|;
    assert |m - z| == n - |z|;
    c := Part(m - z, k);
    assert |a - z| == |a| - |z|;
    assert !(c <= a - z) by { if c <= a - z { SubsetCardinality(c, a - z); } }
    q :| q in c && q !in a - z;
  }

  /** The members at the first three positions draw |m|, |m| + 1 and |m| + 2 at their first calls. */
  lemma FirstNumbers(m: set<Process>, i: nat)
    requires i < |m|
    ensures DrawnNumber(m, |m| + i)
  {
    PositionsAreABijection(m);
    assert i in Positions(m, m);
    var p :| p in m && Position(m, p) == i;
    assert Drawn(|m|, i, 0) == |m| + i;
  }

  ghost predicate RealRun(m: set<Process>, allowed: iset<ViewSeq>, tr: seq<State>, es: seq<Event>) {
    Run(m, tr, es) && forall i | 0 <= i < |es| :: Real(m, allowed, es[i])
  }

  lemma FirstPlan(m: set<Process>, allowed: iset<ViewSeq>, x: ViewSeq, y: ViewSeq)
    requires |m| >= 3 && x in allowed && y in allowed
    ensures PlanOk(m, allowed, Plan(|m|, |m| + 1, |m| + 2, x, y))
  {
    FirstNumbers(m, 0);
    FirstNumbers(m, 1);
    FirstNumbers(m, 2);
  }

  lemma BothChosen(m: set<Process>, allowed: iset<ViewSeq>, pl: Plan) returns (t: State)
    requires 3 * QuorumSize(|m|) <= 2 * |m| && PlanOk(m, allowed, pl)
    ensures Reaches(Step(m, allowed), Begun(m), t)
    ensures Chosen(m, t, pl.mid) && Chosen(m, t, pl.high) && {pl.mid, pl.high} <= t.rounds.Keys
    ensures t.rounds[pl.mid].value == Some(pl.x) && t.rounds[pl.high].value == Some(pl.y)
  {
    var a, b, c, q := ThreeQuorums(m);
    var s1 := TwoRounds(m, allowed, pl, a);
    var s2 := ChosenAndForgotten(m, allowed, pl, s1, a, b);
    forall p | p in c ensures !(p in a && p in b) { assert p in a && p in b ==> p in c * a * b; }
    t := SecondChoice(m, allowed, pl, s2, c, q);
    Concat(Step(m, allowed), Begun(m), s1, s2);
    Concat(Step(m, allowed), Begun(m), s2, t);
    assert VotedBy(t, b, pl.mid) && IsQuorum(b, m) && IsQuorum(c, m);
  }

  /** Two different values accepted by a quorum each, in any view where three quorums need not
      share a process, with numbers that its members draw and any two values they may propose. */
  lemma DisagreementHappens(m: set<Process>, allowed: iset<ViewSeq>, x: ViewSeq, y: ViewSeq)
    returns (tr: seq<State>, es: seq<Event>)
    requires 3 * QuorumSize(|m|) <= 2 * |m| && x in allowed && y in allowed
    ensures RealRun(m, allowed, tr, es)
    ensures var s, mid, high := tr[|es|], |m| + 1, |m| + 2;
            && Chosen(m, s, mid) && Chosen(m, s, high) && mid in s.rounds && high in s.rounds
            && s.rounds[mid].value == Some(x) && s.rounds[high].value == Some(y)
  {
    QuorumSizeIsMajority(|m|);
    FirstPlan(m, allowed, x, y);
    var t := BothChosen(m, allowed, Plan(|m|, |m| + 1, |m| + 2, x, y));
    tr, es := PathOf(Step(m, allowed), Begun(m), t);
    PathIsRealRun(m, allowed, tr, es);
  }

  lemma PathIsRealRun(m: set<Process>, allowed: iset<ViewSeq>, tr: seq<State>, es: seq<Event>)
    requires Path(Step(m, allowed), tr, es) && tr[0] == Begun(m)
    ensures RealRun(m, allowed, tr, es)
  {
    forall i | 0 <= i < |es|
      ensures Enabled(m, tr[i], es[i]) && tr[i + 1] == Next(m, tr[i], es[i]) && Real(m, allowed, es[i])
    {
      assert Step(m, allowed)(tr[i], es[i], tr[i + 1]);
    }
  }

  // ----- values come from proposals -----

  ghost predicate ValueOk(s: State, allowed: iset<ViewSeq>, n: int) {
    n in s.rounds ==>
      s.rounds[n].default in allowed && (s.rounds[n].value.Some? ==> s.rounds[n].value.value in allowed)
  }

  ghost predicate ValuesOk(s: State, allowed: iset<ViewSeq>) {
    forall n {:trigger ValueOk(s, allowed, n)} :: ValueOk(s, allowed, n)
  }

  lemma ValueKept(m: set<Process>, allowed: iset<ViewSeq>, s: State, e: Event, n: int)
    requires Inv(m, s) && Enabled(m, s, e) && Real(m, allowed, e) && ValuesOk(s, allowed)
    ensures ValueOk(Next(m, s, e), allowed, n)
  {
    assert ValueOk(s, allowed, n);
    if e.FinishPrepare? && e.n == n {
      var replies := Replies(e.order, s.rounds[n].replies);
      var top := Highest(replies, NOTHING);
      if top.value.Some? {
        var i :| 0 <= i < |replies| && replies[i] == top;
        assert RoundOk(m, s, n) && ReplyOk(m, s, n, e.order[i]);
        assert ValueOk(s, allowed, top.n);
      }
    }
  }

  lemma {:induction false} ValuesAreProposed(m: set<Process>, allowed: iset<ViewSeq>, tr: seq<State>, es: seq<Event>,
                                             i: nat)
    requires RealRun(m, allowed, tr, es) && i < |tr|
    ensures ValuesOk(tr[i], allowed)
  {
    if i > 0 {
      ConsensusTriples.RunInv(m, tr, es, i - 1);
      ValuesAreProposed(m, allowed, tr, es, i - 1);
      assert Real(m, allowed, es[i - 1]);
      var s' := Next(m, tr[i - 1], es[i - 1]);
      forall n ensures ValueOk(s', allowed, n) { ValueKept(m, allowed, tr[i - 1], es[i - 1], n); }
    }
  }

  // ----- the exact condition -----

  /** In every real run any two values accepted by a quorum are equal. */
  ghost predicate AlwaysAgrees(m: set<Process>, allowed: iset<ViewSeq>) {
    forall tr: seq<State>, es: seq<Event>, i: nat, a: int, b: int ::
      RealRun(m, allowed, tr, es) && i < |tr| && Chosen(m, tr[i], a) && Chosen(m, tr[i], b) ==>
        a in tr[i].rounds && b in tr[i].rounds && tr[i].rounds[a].value == tr[i].rounds[b].value
  }

  ghost predicate AtMostOne(allowed: iset<ViewSeq>) {
    forall x, y | x in allowed && y in allowed :: x == y
  }

  lemma OneProposalAgrees(m: set<Process>, allowed: iset<ViewSeq>, tr: seq<State>, es: seq<Event>, i: nat,
                          a: int, b: int)
    requires AtMostOne(allowed) && RealRun(m, allowed, tr, es) && i < |tr| && Chosen(m, tr[i], a) && Chosen(m, tr[i], b)
    ensures a in tr[i].rounds && b in tr[i].rounds && tr[i].rounds[a].value == tr[i].rounds[b].value
  {
    ConsensusTriples.RunInv(m, tr, es, i);
    ChosenHasValue(m, tr[i], a);
    ChosenHasValue(m, tr[i], b);
    ValuesAreProposed(m, allowed, tr, es, i);
    assert ValueOk(tr[i], allowed, a) && ValueOk(tr[i], allowed, b);
  }

  lemma ChosenHasValue(m: set<Process>, s: State, n: int)
    requires Inv(m, s) && Chosen(m, s, n)
    ensures n in s.rounds && s.rounds[n].value.Some?
  {
    var q :| IsQuorum(q, m) && VotedBy(s, q, n);
    var x := QuorumNonEmpty(m, q);
    assert VoteOk(m, s, (x, n));
  }

  /** The exact condition on the view and on what may be proposed. */
  lemma AgreementIffThreeQuorumsMeet(m: set<Process>, allowed: iset<ViewSeq>)
    ensures AlwaysAgrees(m, allowed) <==> 3 * QuorumSize(|m|) > 2 * |m| || AtMostOne(allowed)
    ensures 3 * QuorumSize(|m|) > 2 * |m| <==> |m| in {0, 1, 2, 4}
  {
    if 3 * QuorumSize(|m|) > 2 * |m| || AtMostOne(allowed) {
      forall tr: seq<State>, es: seq<Event>, i: nat, a: int, b: int
        | RealRun(m, allowed, tr, es) && i < |tr| && Chosen(m, tr[i], a) && Chosen(m, tr[i], b)
        ensures a in tr[i].rounds && b in tr[i].rounds && tr[i].rounds[a].value == tr[i].rounds[b].value
      {
        if AtMostOne(allowed) {
          OneProposalAgrees(m, allowed, tr, es, i, a, b);
        } else {
          AgreementInSmallViews(m, tr, es, i, a, b);
        }
      }
    } else {
      var x, y :| x in allowed && y in allowed && x != y;
      var tr, es := DisagreementHappens(m, allowed, x, y);
      assert Chosen(m, tr[|es|], |m| + 1) && Chosen(m, tr[|es|], |m| + 2);
    }
    QuorumSizeIsMajority(|m|);
  }
}
