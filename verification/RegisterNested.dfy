/**
 Why the register needs one install view per associated view. Here a server handles any install
 sequence that leads to a newer view, as gotInstallSeqQuorum does: from w[i] to any later w[j],
 whatever its current view is, with the states that a quorum of w[i] sent when it left w[i]. If
 every server goes step by step this is the register system. If views can be skipped, a server can
 overwrite its register with an old state, and the order of timestamps holds in all runs if and
 only if there is no third view to skip to.
 */
module RegisterNested {
  import opened Views
  import opened RegisterSystem
  import opened RegisterInvariants
  import opened RegisterOrder
  import opened RegisterTheorems
  import opened Runs

  datatype AnyEvent =
    | Plain(e: Event)
    | Move(p: Process, step: nat, target: nat, order: seq<Process>)

  predicate AnyEnabled(w: seq<Installed>, s: State, x: AnyEvent) {
    match x
    case Plain(e) => !e.Install? && Enabled(w, s, e)
    case Move(p, i, j, order) =>
      && p in s.servers && i < j < |w| && p in w[j].members && s.servers[p].cur < j
      && Distinct(order) && AllSent(order, i, s.sent) && |order| == QuorumSize(|w[i].members|)
      && (p in w[i].members ==> (p, i) in s.sent)
  }

  function AnyNext(w: seq<Installed>, s: State, x: AnyEvent): State
    requires AnyEnabled(w, s, x)
  {
    match x
    case Plain(e) => Next(w, s, e)
    case Move(p, i, j, order) =>
      var sv := s.servers[p];
      s.(clock := s.clock + 1,
         servers := s.servers[p := Server(j, Newest(SentRegs(order, i, s.sent), Register(-1, Nil)),
                                          sv.recv + SentRecv(order, i, s.sent) - w[j].entries)],
         origin := s.origin[(p, j) := Origin(AsSet(order), s.clock)])
  }

  ghost predicate AnyRun(w: seq<Installed>, tr: seq<State>, xs: seq<AnyEvent>) {
    && Chain(w) && CachesExact(w)
    && |tr| == |xs| + 1 && Init(w, tr[0])
    && forall i | 0 <= i < |xs| :: AnyEnabled(w, tr[i], xs[i]) && tr[i + 1] == AnyNext(w, tr[i], xs[i])
  }

  // ----- step by step it is the register system -----

  /** The server goes to the next view, from the one it is in if it is a member of it. */
  predicate StepByStep(w: seq<Installed>, s: State, x: AnyEvent) {
    x.Move? ==>
      && x.target == x.step + 1 && x.p in s.servers && x.step < |w|
      && (if x.p in w[x.step].members then s.servers[x.p].cur == x.step else s.servers[x.p].cur <= x.step)
  }

  function AsEvent(x: AnyEvent): Event {
    match x
    case Plain(e) => e
    case Move(p, i, _, order) => Install(p, i, order)
  }

  lemma StepIsEvent(w: seq<Installed>, s: State, x: AnyEvent)
    requires AnyEnabled(w, s, x) && StepByStep(w, s, x)
    ensures Enabled(w, s, AsEvent(x)) && Next(w, s, AsEvent(x)) == AnyNext(w, s, x)
  {
  }

  lemma StepByStepIsRun(w: seq<Installed>, tr: seq<State>, xs: seq<AnyEvent>) returns (es: seq<Event>)
    requires AnyRun(w, tr, xs) && forall i | 0 <= i < |xs| :: StepByStep(w, tr[i], xs[i])
    ensures Run(w, tr, es)
  {
    es := seq(|xs|, i requires 0 <= i < |xs| => AsEvent(xs[i]));
    forall i | 0 <= i < |es| ensures Enabled(w, tr[i], es[i]) && tr[i + 1] == Next(w, tr[i], es[i]) {
      StepIsEvent(w, tr[i], xs[i]);
    }
  }

  /** Timestamps follow real time. */
  ghost predicate Ordered(s: State) {
    forall a, b :: 0 <= a < |s.ops| && 0 <= b < |s.ops| ==> OrderedPair(s.ops[a], s.ops[b])
  }

  ghost predicate OrderedPair(a: Op, b: Op) {
    a.status.Done? && b.status.Done? && Before(a, b) && a.choice.Chosen? && b.choice.Chosen? ==>
      a.choice.reg.ts <= b.choice.reg.ts && (b.kind.Write? ==> a.choice.reg.ts < b.choice.reg.ts)
  }

  ghost predicate AlwaysOrdered(w: seq<Installed>) {
    forall tr: seq<State>, xs: seq<AnyEvent>, i: nat :: AnyRun(w, tr, xs) && i < |tr| ==> Ordered(tr[i])
  }

  lemma StepByStepIsOrdered(w: seq<Installed>, tr: seq<State>, xs: seq<AnyEvent>, i: nat)
    requires AnyRun(w, tr, xs) && i < |tr| && forall k | 0 <= k < |xs| :: StepByStep(w, tr[k], xs[k])
    ensures Ordered(tr[i])
  {
    var es := StepByStepIsRun(w, tr, xs);
    forall a, b | 0 <= a < |tr[i].ops| && 0 <= b < |tr[i].ops| ensures OrderedPair(tr[i].ops[a], tr[i].ops[b]) {
      var o, o' := tr[i].ops[a], tr[i].ops[b];
      if o.status.Done? && o'.status.Done? && Before(o, o') { TimestampsFollowRealTime(w, tr, es, i, a, b); }
    }
  }

  // ----- a run that skips a view -----

  ghost function Step(w: seq<Installed>): (State, AnyEvent, State) -> bool {
    (s: State, x: AnyEvent, t: State) => AnyEnabled(w, s, x) && AnyNext(w, s, x) == t
  }

  ghost predicate SceneOk(w: seq<Installed>) {
    Chain(w) && CachesExact(w) && |w| >= 3 && forall i | 0 <= i < 3 :: w[i].members != {}
  }

  function Everyone(w: seq<Installed>): set<Process>
    requires |w| >= 3
  {
    w[0].members + w[1].members + w[2].members
  }

  function Start(w: seq<Installed>): State
    requires |w| >= 3
  {
    State(0, map p | p in Everyone(w) :: Server(0, INITIAL, {}), [], {}, map[], map[], {})
  }

  /** The members `done` of the first view have sent their initial state. */
  ghost predicate Sending(w: seq<Installed>, s: State, done: set<Process>)
    requires |w| >= 3
  {
    && s.servers == Start(w).servers && s.ops == [] && s.wire == {}
    && (forall p | p in done :: (p, 0) in s.sent)
    && (forall k | k in s.sent :: k.1 == 0 && k.0 in done && s.sent[k].reg == INITIAL)
  }

  lemma SendTurn(w: seq<Installed>, s: State, done: set<Process>, p: Process) returns (t: State)
    requires SceneOk(w) && Sending(w, s, done) && p in w[0].members && p !in done
    ensures Step(w)(s, Plain(SendState(p)), t) && Sending(w, t, done + {p})
  {
    t := AnyNext(w, s, Plain(SendState(p)));
  }

  lemma SendAll(w: seq<Installed>) returns (t: State)
    requires SceneOk(w)
    ensures Reaches(Step(w), Start(w), t) && Sending(w, t, w[0].members)
  {
    var inv := (s: State, done: set<Process>) => Sending(w, s, done);
    forall s, done, p | inv(s, done) && done <= w[0].members && p in w[0].members && p !in done
      ensures Runs.Turn(Step(w), inv, s, done, p)
    {
      var u := SendTurn(w, s, done, p);
    }
    t := EachInTurn(Step(w), inv, Start(w), w[0].members, w[0].members);
  }

  /** Between s0 and s the processes `done` went to view j with the initial content. */
  ghost predicate Moved(s0: State, s: State, j: nat, done: set<Process>) {
    && s.ops == s0.ops && s.wire == s0.wire && s.sent == s0.sent && s.servers.Keys == s0.servers.Keys
    && forall p | p in s.servers ::
         if p in done then s.servers[p].cur == j && s.servers[p].reg == INITIAL else s.servers[p] == s0.servers[p]
  }

  /** The states of the first view are all initial, and those of `order` are a quorum of them. */
  ghost predicate OldStates(w: seq<Installed>, s: State, order: seq<Process>) {
    && |w| >= 3 && Distinct(order) && AllSent(order, 0, s.sent) && |order| == QuorumSize(|w[0].members|)
    && (forall q | q in order :: s.sent[(q, 0)].reg == INITIAL)
    && (forall q | q in w[0].members :: (q, 0) in s.sent)
  }

  lemma MergesToInitial(w: seq<Installed>, s: State, order: seq<Process>)
    requires OldStates(w, s, order)
    ensures Newest(SentRegs(order, 0, s.sent), Register(-1, Nil)) == INITIAL
  {
    var regs := SentRegs(order, 0, s.sent);
    QuorumSizeIsMajority(|w[0].members|);
    assert regs[0] in regs && order[0] in order;
    forall r | r in regs ensures r == INITIAL {
      var i :| 0 <= i < |order| && regs[i] == r;
      assert order[i] in order;
    }
  }

  lemma MoveTurn(w: seq<Installed>, s0: State, s: State, j: nat, order: seq<Process>, done: set<Process>, p: Process)
    returns (t: State)
    requires OldStates(w, s0, order) && Moved(s0, s, j, done) && 0 < j < |w|
    requires p in w[j].members && p in s0.servers && s0.servers[p].cur < j && p !in done
    ensures Step(w)(s, Move(p, 0, j, order), t) && Moved(s0, t, j, done + {p})
  {
    MergesToInitial(w, s0, order);
    t := AnyNext(w, s, Move(p, 0, j, order));
  }

  lemma MoveAll(w: seq<Installed>, s: State, j: nat, order: seq<Process>, ps: set<Process>) returns (t: State)
    requires OldStates(w, s, order) && 0 < j < |w| && ps <= w[j].members
    requires forall p | p in ps :: p in s.servers && s.servers[p].cur < j
    ensures Reaches(Step(w), s, t) && Moved(s, t, j, ps)
  {
    var inv := (u: State, done: set<Process>) => Moved(s, u, j, done);
    forall u, done, p | inv(u, done) && done <= ps && p in ps && p !in done
      ensures Runs.Turn(Step(w), inv, u, done, p)
    {
      var v := MoveTurn(w, s, u, j, order, done, p);
    }
    t := EachInTurn(Step(w), inv, s, ps, ps);
  }

  // ----- operations over a quorum that holds the initial content -----

  /** All processes of ps serve view v and hold the initial content. */
  ghost predicate Idle(w: seq<Installed>, s: State, v: nat, ps: set<Process>) {
    forall p | p in ps :: Serves(w, s, p, v) && s.servers[p].reg == INITIAL
  }

  function Answers(done: set<Process>): map<Process, Register> {
    map p | p in done :: INITIAL
  }

  /** Operation k of s0 has been answered by `done`. */
  ghost predicate Asked(s0: State, s: State, k: nat, v: nat, done: set<Process>)
    requires k < |s0.ops|
  {
    && s.servers == s0.servers && s.sent == s0.sent && s.wire == s0.wire
    && s.ops == s0.ops[k := s0.ops[k].(status := Reading(v, Answers(done)))]
  }

  lemma AskTurn(w: seq<Installed>, s0: State, s: State, k: nat, v: nat, ps: set<Process>, done: set<Process>,
                p: Process)
    returns (t: State)
    requires k < |s0.ops| && Asked(s0, s, k, v, done) && Idle(w, s0, v, ps) && p in ps && p !in done
    ensures Step(w)(s, Plain(ServeRead(k, p)), t) && Asked(s0, t, k, v, done + {p})
  {
    t := AnyNext(w, s, Plain(ServeRead(k, p)));
    assert Answers(done)[p := INITIAL] == Answers(done + {p});
  }

  lemma AskAll(w: seq<Installed>, s: State, k: nat, v: nat, ps: set<Process>) returns (t: State)
    requires k < |s.ops| && s.ops[k].status == Reading(v, map[]) && Idle(w, s, v, ps)
    ensures Reaches(Step(w), s, t) && Asked(s, t, k, v, ps)
  {
    var inv := (u: State, done: set<Process>) => Asked(s, u, k, v, done);
    assert Answers({}) == map[] && s.ops[k := s.ops[k]] == s.ops;
    forall u, done, p | inv(u, done) && done <= ps && p in ps && p !in done
      ensures Runs.Turn(Step(w), inv, u, done, p)
    {
      var x := AskTurn(w, s, u, k, v, ps, done, p);
    }
    t := EachInTurn(Step(w), inv, s, ps, ps);
  }

  /** What an operation does after a first phase that finds nothing. */
  lemma FindsNothing(o: Op, order: seq<Process>, now: nat)
    requires o.status.Reading? && order != []
    requires forall p | p in order :: p in o.status.answers && o.status.answers[p] == INITIAL
    ensures AfterRead(o, order, now) ==
            match o.kind
            case Write(x) => o.(choice := Chosen(Register(1, x)), status := Writing(o.status.view, {}))
            case Read => o.(choice := Chosen(INITIAL), status := Done(o.status.view, now, AsSet(order)))
  {
    var regs := Answered(order, o.status.answers);
    forall r | r in regs ensures r == INITIAL {
      var i :| 0 <= i < |order| && regs[i] == r;
      assert order[i] in order;
    }
  }

  /** A first phase of a new operation in view v, answered by the quorum ps. */
  lemma FirstPhase(w: seq<Installed>, s: State, client: nat, kind: Kind, v: nat, ps: set<Process>) returns (t: State)
    requires v < |w| && ps <= w[v].members && |ps| == QuorumSize(|w[v].members|) && Idle(w, s, v, ps)
    requires forall k | 0 <= k < |s.ops| && s.ops[k].client == client :: s.ops[k].status.Done?
    ensures Reaches(Step(w), s, t) && t.servers == s.servers && t.sent == s.sent && |t.ops| == |s.ops| + 1
    ensures t.ops[..|s.ops|] == s.ops && t.ops[|s.ops|].start == s.clock && t.ops[|s.ops|].kind == kind
    ensures kind.Read? ==> t.ops[|s.ops|].status.Done? && t.ops[|s.ops|].choice == Chosen(INITIAL)
    ensures kind.Write? ==> t.ops[|s.ops|].status == Writing(v, {}) && (|s.ops|, v) in t.wire
                            && t.ops[|s.ops|].choice == Chosen(Register(1, kind.value))
  {
    var k := |s.ops|;
    var o := Op(client, kind, s.clock, Undecided, Reading(v, map[]));
    var s1 := AnyNext(w, s, Plain(Begin(client, kind, v)));
    Once(Step(w), s, Plain(Begin(client, kind, v)), s1);
    assert s1.ops == s.ops + [o];
    forall p | p in ps ensures Serves(w, s1, p, v) && s1.servers[p].reg == INITIAL { assert Serves(w, s, p, v); }
    var s2 := AskAll(w, s1, k, v, ps);
    Concat(Step(w), s, s1, s2);
    t := EndFirstPhase(w, s1, s2, k, v, ps);
    Concat(Step(w), s, s2, t);
  }

  lemma EndFirstPhase(w: seq<Installed>, s1: State, s2: State, k: nat, v: nat, ps: set<Process>) returns (t: State)
    requires k < |s1.ops| && Asked(s1, s2, k, v, ps) && v < |w| && ps <= w[v].members
    requires |ps| == QuorumSize(|w[v].members|)
    ensures Reaches(Step(w), s2, t) && t.servers == s1.servers && t.sent == s1.sent && |t.ops| == |s1.ops|
    ensures t.ops == s1.ops[k := t.ops[k]]
    ensures t.ops[k].start == s1.ops[k].start && t.ops[k].kind == s1.ops[k].kind && t.ops[k].client == s1.ops[k].client
    ensures s1.ops[k].kind.Read? ==> t.ops[k].status.Done? && t.ops[k].choice == Chosen(INITIAL)
    ensures s1.ops[k].kind.Write? ==> t.ops[k].status == Writing(v, {}) && (k, v) in t.wire
                                      && t.ops[k].choice == Chosen(Register(1, s1.ops[k].kind.value))
  {
    var order := Enumerate(ps);
    QuorumSizeIsMajority(|w[v].members|);
    forall p | p in order ensures p in ps { assert p in AsSet(order); }
    FindsNothing(s2.ops[k], order, s2.clock);
    var e := Plain(FinishRead(k, order));
    t := AnyNext(w, s2, e);
    Once(Step(w), s2, e, t);
  }

  /** Operation k of s0 has been acknowledged by `done`, which hold its content. */
  ghost predicate Acked(s0: State, s: State, k: nat, v: nat, reg: Register, done: set<Process>)
    requires k < |s0.ops|
  {
    && s.servers.Keys == s0.servers.Keys && s.sent == s0.sent && s.wire == s0.wire
    && s.ops == s0.ops[k := s0.ops[k].(status := Writing(v, done))]
    && forall p | p in s.servers ::
         s.servers[p] == if p in done then s0.servers[p].(reg := reg) else s0.servers[p]
  }

  lemma AckTurn(w: seq<Installed>, s0: State, s: State, k: nat, v: nat, reg: Register, ps: set<Process>,
                done: set<Process>, p: Process) returns (t: State)
    requires k < |s0.ops| && Acked(s0, s, k, v, reg, done) && Idle(w, s0, v, ps) && p in ps && p !in done
    requires (k, v) in s0.wire && s0.ops[k].choice == Chosen(reg) && reg.ts == 1
    ensures Step(w)(s, Plain(ServeWrite(k, v, p)), t) && Acked(s0, t, k, v, reg, done + {p})
  {
    assert Serves(w, s0, p, v);
    t := AnyNext(w, s, Plain(ServeWrite(k, v, p)));
  }

  /** A second phase: the quorum ps acknowledges and the operation returns. */
  lemma SecondPhase(w: seq<Installed>, s: State, k: nat, v: nat, reg: Register, ps: set<Process>) returns (t: State)
    requires k < |s.ops| && s.ops[k].status == Writing(v, {}) && Idle(w, s, v, ps) && v < |w|
    requires (k, v) in s.wire && s.ops[k].choice == Chosen(reg) && reg.ts == 1 && |ps| == QuorumSize(|w[v].members|)
    ensures Reaches(Step(w), s, t) && t.servers.Keys == s.servers.Keys && t.sent == s.sent
    ensures forall p | p in t.servers :: t.servers[p].cur == s.servers[p].cur
    ensures |t.ops| == |s.ops| && t.ops == s.ops[k := s.ops[k].(status := t.ops[k].status)]
    ensures t.ops[k].status.Done? && t.ops[k].status.end < t.clock
  {
    var inv := (u: State, done: set<Process>) => Acked(s, u, k, v, reg, done);
    assert s.ops[k := s.ops[k]] == s.ops;
    forall u, done, p | inv(u, done) && done <= ps && p in ps && p !in done
      ensures Runs.Turn(Step(w), inv, u, done, p)
    {
      var x := AckTurn(w, s, u, k, v, reg, ps, done, p);
    }
    var u := EachInTurn(Step(w), inv, s, ps, ps);
    t := AnyNext(w, u, Plain(FinishWrite(k)));
    Go(Step(w), s, u, Plain(FinishWrite(k)), t);
  }

  // ----- the exact condition -----

  /** A quorum of the second view, installed from the first, completes a Write there. */
  lemma WriteInSecondView(w: seq<Installed>, client: nat, x: Value) returns (t: State, order: seq<Process>)
    requires SceneOk(w)
    ensures Reaches(Step(w), Start(w), t) && OldStates(w, t, order) && t.servers.Keys == Everyone(w)
    ensures forall p | p in t.servers :: t.servers[p].cur <= 1
    ensures forall k | k in t.sent :: k.1 == 0
    ensures |t.ops| == 1 && t.ops[0].kind == Write(x) && t.ops[0].choice == Chosen(Register(1, x))
    ensures t.ops[0].status.Done? && t.ops[0].status.end < t.clock
  {
    var s1 := SendAll(w);
    QuorumSizeIsMajority(|w[0].members|);
    QuorumSizeIsMajority(|w[1].members|);
    order := Enumerate(SomeQuorum(w[0].members));
    forall p | p in order ensures p in w[0].members { assert p in AsSet(order); }
    var ps := SomeQuorum(w[1].members);
    var s2 := MoveAll(w, s1, 1, order, ps);
    assert Idle(w, s2, 1, ps);
    var s3 := FirstPhase(w, s2, client, Write(x), 1, ps);
    assert Idle(w, s3, 1, ps);
    t := SecondPhase(w, s3, 0, 1, Register(1, x), ps);
    Concat(Step(w), Start(w), s1, s2);
    Concat(Step(w), Start(w), s2, s3);
    Concat(Step(w), Start(w), s3, t);
  }

  /** Some quorum of m. */
  ghost function SomeQuorum(m: set<Process>): (q: set<Process>)
    requires m != {}
    ensures q <= m && |q| == QuorumSize(|m|)
  {
    QuorumSizeIsMajority(|m|);
    QuorumExists(m);
    var q :| q <= m && |q| == QuorumSize(|m|);
    q
  }

  lemma QuorumExists(m: set<Process>)
    requires m != {}
    ensures exists q :: q <= m && |q| == QuorumSize(|m|)
  {
    QuorumSizeIsMajority(|m|);
    var q := Part(m, QuorumSize(|m|));
  }

  /** Then a quorum of the third view, installed from the first, answers a Read with the initial
      content. */
  lemma SkippedWriteIsLost(w: seq<Installed>, writer: nat, reader: nat, x: Value)
    returns (tr: seq<State>, xs: seq<AnyEvent>)
    requires SceneOk(w)
    ensures AnyRun(w, tr, xs)
    ensures var ops := tr[|xs|].ops;
            && |ops| == 2 && ops[0].kind == Write(x) && ops[1].kind == Read && Before(ops[0], ops[1])
            && ops[0].status.Done? && ops[1].status.Done?
            && ops[0].choice == Chosen(Register(1, x)) && ops[1].choice == Chosen(INITIAL)
  {
    var s, order := WriteInSecondView(w, writer, x);
    var ps := SomeQuorum(w[2].members);
    var s1 := MoveAll(w, s, 2, order, ps);
    assert Idle(w, s1, 2, ps);
    var t := FirstPhase(w, s1, reader, Read, 2, ps);
    assert t.ops[0] == t.ops[..1][0] == s.ops[0];
    ClockKept(w, s, s1);
    Concat(Step(w), Start(w), s, s1);
    Concat(Step(w), Start(w), s1, t);
    tr, xs := PathOf(Step(w), Start(w), t);
    PathIsAnyRun(w, tr, xs);
  }

  lemma ClockKept(w: seq<Installed>, s: State, t: State)
    requires Reaches(Step(w), s, t)
    ensures s.clock <= t.clock
  {
    var tr, xs := PathOf(Step(w), s, t);
    ClockGrows(w, tr, xs, |xs|);
  }

  lemma {:induction false} ClockGrows(w: seq<Installed>, tr: seq<State>, xs: seq<AnyEvent>, i: nat)
    requires Path(Step(w), tr, xs) && i < |tr|
    ensures tr[0].clock <= tr[i].clock
  {
    if i > 0 {
      ClockGrows(w, tr, xs, i - 1);
      var s, x, t := tr[i - 1], xs[i - 1], tr[i];
      assert Step(w)(s, x, tr[i - 1 + 1]);
      assert AnyEnabled(w, s, x) && AnyNext(w, s, x) == t;
      assert t.clock == s.clock + 1;
    }
  }

  lemma PathIsAnyRun(w: seq<Installed>, tr: seq<State>, xs: seq<AnyEvent>)
    requires SceneOk(w) && Path(Step(w), tr, xs) && tr[0] == Start(w)
    ensures AnyRun(w, tr, xs)
  {
    forall i | 0 <= i < |xs|
      ensures AnyEnabled(w, tr[i], xs[i]) && tr[i + 1] == AnyNext(w, tr[i], xs[i])
    {
      assert Step(w)(tr[i], xs[i], tr[i + 1]);
    }
  }

  /** Timestamps follow real time in all runs if and only if there is no third view. */
  lemma {:induction false} OrderedIffNothingToSkip(w: seq<Installed>)
    requires Chain(w) && CachesExact(w) && forall i | 0 <= i < |w| :: w[i].members != {}
    ensures AlwaysOrdered(w) <==> |w| <= 2
  {
    if |w| <= 2 {
      forall tr: seq<State>, xs: seq<AnyEvent>, i: nat | AnyRun(w, tr, xs) && i < |tr| ensures Ordered(tr[i]) {
        assert forall k | 0 <= k < |xs| :: StepByStep(w, tr[k], xs[k]);
        StepByStepIsOrdered(w, tr, xs, i);
      }
    } else {
      var tr, xs := SkippedWriteIsLost(w, 0, 1, Nil);
      assert !OrderedPair(tr[|xs|].ops[0], tr[|xs|].ops[1]);
    }
  }
}
