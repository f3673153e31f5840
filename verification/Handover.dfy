/**
 The register outlives its servers: a run in which a Write returns in a view whose only member
 then leaves, the state moves to a server that was not there, and a Read of that server alone
 returns what was written. It shows that the guarantees across installs are about something.
 */
module Handover {
  import opened Views
  import opened RegisterSystem
  import opened RegisterRuns
  import opened Runs

  const A := Process("a")
  const B := Process("b")
  const FIRST: Installed := Installed({Update(Join, A)}, {A})
  const SECOND: Installed := Installed({Update(Join, A), Update(Join, B), Update(Leave, A)}, {B})
  const W := [FIRST, SECOND]

  function Pair(clock: nat, a: Server, b: Server, ops: seq<Op>, wire: set<(nat, nat)>,
                sent: map<(Process, nat), StateMsg>, origin: map<(Process, nat), Origin>): State {
    State(clock, map[A := a, B := b], ops, wire, sent, origin, {})
  }

  const FRESH := Server(0, INITIAL, {})

  lemma TwoViews()
    ensures A != B && QuorumSize(|FIRST.members|) == 1 && QuorumSize(|SECOND.members|) == 1
    ensures Chain(W) && CachesExact(W) && FIRST.members !! SECOND.members
    ensures Init(W, Pair(0, FRESH, FRESH, [], {}, map[], map[]))
  {
    assert A.addr[0] != B.addr[0];
    forall p
      ensures p in Members(FIRST.entries) <==> p in FIRST.members
      ensures p in Members(SECOND.entries) <==> p in SECOND.members
    {
      MembersMeaning(FIRST.entries, p);
      MembersMeaning(SECOND.entries, p);
    }
    assert Update(Join, B) in SECOND.entries && Update(Join, B) !in FIRST.entries;
    assert W[..1] == [FIRST] && [FIRST][..0] == [];
  }

  lemma {:induction false} NewestOfOne(r: Register, best: Register)
    ensures Newest([r], best) == ApplyWrite(best, r)
  {
    var one := [r];
    assert one[1..] == [];
  }

  /** The first phase of operation k ends with the answer of p alone. */
  lemma OneAnswer(o: Op, p: Process, view: nat, reg: Register, now: nat)
    requires o.status == Reading(view, map[p := reg]) && reg.ts >= 0
    requires reg.ts == 0 ==> reg == INITIAL
    ensures AfterRead(o, [p], now) ==
            match o.kind
            case Write(v) => o.(choice := Chosen(Register(reg.ts + 1, v)), status := Writing(view, {}))
            case Read => o.(choice := Chosen(reg), status := Done(view, now, {p}))
  {
    assert Answered([p], o.status.answers) == [reg];
    NewestOfOne(reg, INITIAL);
    assert AsSet([p]) == {p};
  }

  function Writer(client: nat, x: Value, choice: Choice, status: Status): Op {
    Op(client, Write(x), 0, choice, status)
  }

  function Reader(client: nat, choice: Choice, status: Status): Op {
    Op(client, Read, 7, choice, status)
  }

  function Wrote(client: nat, x: Value): Op {
    Writer(client, x, Chosen(Register(1, x)), Done(0, 4, {A}))
  }

  /** After the first phase of the Write, which finds nothing. */
  function Drawn(client: nat, x: Value): State {
    Pair(3, FRESH, FRESH, [Writer(client, x, Chosen(Register(1, x)), Writing(0, {}))], {(0, 0)}, map[], map[])
  }

  function Written(x: Value, ops: seq<Op>): State {
    Pair(5, Server(0, Register(1, x), {}), FRESH, ops, {(0, 0)}, map[], map[])
  }

  lemma WriteStarts(client: nat, x: Value)
    ensures Reaches(Step(W), Pair(0, FRESH, FRESH, [], {}, map[], map[]), Drawn(client, x))
  {
    TwoViews();
    var s0 := Pair(0, FRESH, FRESH, [], {}, map[], map[]);
    var o1 := Writer(client, x, Undecided, Reading(0, map[]));
    var o2 := Writer(client, x, Undecided, Reading(0, map[A := INITIAL]));
    var s1, s2 := Pair(1, FRESH, FRESH, [o1], {}, map[], map[]), Pair(2, FRESH, FRESH, [o2], {}, map[], map[]);
    assert Next(W, s0, Begin(client, Write(x), 0)) == s1;
    Once(Step(W), s0, Begin(client, Write(x), 0), s1);
    assert Next(W, s1, ServeRead(0, A)) == s2;
    Go(Step(W), s0, s1, ServeRead(0, A), s2);
    WriteDraws(client, x, o2);
    Go(Step(W), s0, s2, FinishRead(0, [A]), Drawn(client, x));
  }

  lemma WriteDraws(client: nat, x: Value, o: Op)
    requires o == Writer(client, x, Undecided, Reading(0, map[A := INITIAL]))
    ensures var s := Pair(2, FRESH, FRESH, [o], {}, map[], map[]);
            Enabled(W, s, FinishRead(0, [A])) && Next(W, s, FinishRead(0, [A])) == Drawn(client, x)
  {
    TwoViews();
    OneAnswer(o, A, 0, INITIAL, 2);
  }

  lemma WriteReturns(client: nat, x: Value)
    ensures Reaches(Step(W), Drawn(client, x), Written(x, [Wrote(client, x)]))
  {
    TwoViews();
    var reg, s3, s5 := Register(1, x), Drawn(client, x), Written(x, [Wrote(client, x)]);
    var o := Writer(client, x, Chosen(reg), Writing(0, {A}));
    var s4 := Pair(4, Server(0, reg, {}), FRESH, [o], {(0, 0)}, map[], map[]);
    assert {} + {A} == {A};
    assert Next(W, s3, ServeWrite(0, 0, A)) == s4;
    Once(Step(W), s3, ServeWrite(0, 0, A), s4);
    assert Next(W, s4, FinishWrite(0)) == s5;
    Go(Step(W), s3, s4, FinishWrite(0), s5);
  }

  /** What A sends when it leaves the first view, and the state with B in the second. */
  function Sent(x: Value): map<(Process, nat), StateMsg> {
    map[(A, 0) := StateMsg(Register(1, x), {}, 5)]
  }

  function Moved(clock: nat, x: Value, ops: seq<Op>): State {
    Pair(clock, Server(0, Register(1, x), {}), Server(1, Register(1, x), {}), ops, {(0, 0)},
         Sent(x), map[(B, 1) := Origin({A}, 6)])
  }

  function Leaving(x: Value, ops: seq<Op>): State {
    Pair(6, Server(0, Register(1, x), {}), FRESH, ops, {(0, 0)}, Sent(x), map[])
  }

  lemma Merged(x: Value)
    ensures AllSent([A], 0, Sent(x)) && SentRecv([A], 0, Sent(x)) == {} && AsSet([A]) == {A} && Distinct([A])
    ensures Newest(SentRegs([A], 0, Sent(x)), Register(-1, Nil)) == Register(1, x)
  {
    assert SentRegs([A], 0, Sent(x)) == [Register(1, x)];
    NewestOfOne(Register(1, x), Register(-1, Nil));
  }

  lemma InstallStep(x: Value, ops: seq<Op>)
    ensures Enabled(W, Leaving(x, ops), Install(B, 0, [A]))
    ensures Next(W, Leaving(x, ops), Install(B, 0, [A])) == Moved(7, x, ops)
  {
    TwoViews();
    Merged(x);
    var t, t' := Next(W, Leaving(x, ops), Install(B, 0, [A])), Moved(7, x, ops);
    assert t.servers[B] == Server(1, Register(1, x), {});
    assert t.servers == t'.servers && t.origin == t'.origin;
  }

  lemma StateMoves(x: Value, ops: seq<Op>)
    ensures Reaches(Step(W), Written(x, ops), Moved(7, x, ops))
  {
    TwoViews();
    assert Next(W, Written(x, ops), SendState(A)) == Leaving(x, ops);
    Once(Step(W), Written(x, ops), SendState(A), Leaving(x, ops));
    InstallStep(x, ops);
    Go(Step(W), Written(x, ops), Leaving(x, ops), Install(B, 0, [A]), Moved(7, x, ops));
  }

  lemma ReadReturns(client: nat, wrote: Op, x: Value)
    requires wrote.client == client ==> wrote.status.Done?
    ensures Reaches(Step(W), Moved(7, x, [wrote]),
                    Moved(10, x, [wrote, Reader(client, Chosen(Register(1, x)), Done(1, 9, {B}))]))
  {
    var o2 := Reader(client, Undecided, Reading(1, map[B := Register(1, x)]));
    var o3 := Reader(client, Chosen(Register(1, x)), Done(1, 9, {B}));
    ReadStarts(client, wrote, x);
    ReadEnds(wrote, x, o2, o3, client);
    Go(Step(W), Moved(7, x, [wrote]), Moved(9, x, [wrote, o2]), FinishRead(1, [B]), Moved(10, x, [wrote, o3]));
  }

  lemma ReadStarts(client: nat, wrote: Op, x: Value)
    requires wrote.client == client ==> wrote.status.Done?
    ensures Reaches(Step(W), Moved(7, x, [wrote]),
                    Moved(9, x, [wrote, Reader(client, Undecided, Reading(1, map[B := Register(1, x)]))]))
  {
    TwoViews();
    var o1 := Reader(client, Undecided, Reading(1, map[]));
    var o2 := Reader(client, Undecided, Reading(1, map[B := Register(1, x)]));
    var s7, s8, s9 := Moved(7, x, [wrote]), Moved(8, x, [wrote, o1]), Moved(9, x, [wrote, o2]);
    assert Next(W, s7, Begin(client, Read, 1)) == s8;
    Once(Step(W), s7, Begin(client, Read, 1), s8);
    assert Next(W, s8, ServeRead(1, B)) == s9;
    Go(Step(W), s7, s8, ServeRead(1, B), s9);
  }

  lemma ReadEnds(wrote: Op, x: Value, o2: Op, o3: Op, client: nat)
    requires o2 == Reader(client, Undecided, Reading(1, map[B := Register(1, x)]))
    requires o3 == Reader(client, Chosen(Register(1, x)), Done(1, 9, {B}))
    ensures Enabled(W, Moved(9, x, [wrote, o2]), FinishRead(1, [B]))
    ensures Next(W, Moved(9, x, [wrote, o2]), FinishRead(1, [B])) == Moved(10, x, [wrote, o3])
  {
    TwoViews();
    OneAnswer(o2, B, 1, Register(1, x), 9);
  }

  /** For any clients and any value: written in a view of A alone, read in a view of B alone. */
  lemma HandoverHappens(writer: nat, reader: nat, x: Value) returns (tr: seq<State>, es: seq<Event>)
    ensures FIRST.members !! SECOND.members && Run(W, tr, es)
    ensures var s := tr[|es|];
            && |s.ops| == 2
            && s.ops[0].kind == Write(x) && s.ops[0].status.Done? && s.ops[0].status.view == 0
            && s.ops[1].kind == Read && s.ops[1].status.Done? && s.ops[1].status.view == 1
            && s.ops[0].status.end < s.ops[1].start && s.ops[1].choice == Chosen(Register(1, x))
  {
    TwoViews();
    var s0, wrote := Pair(0, FRESH, FRESH, [], {}, map[], map[]), Wrote(writer, x);
    var s10 := Moved(10, x, [wrote, Reader(reader, Chosen(Register(1, x)), Done(1, 9, {B}))]);
    WriteStarts(writer, x);
    WriteReturns(writer, x);
    StateMoves(x, [wrote]);
    ReadReturns(reader, wrote, x);
    Concat(Step(W), s0, Drawn(writer, x), Written(x, [wrote]));
    Concat(Step(W), s0, Written(x, [wrote]), Moved(7, x, [wrote]));
    Concat(Step(W), s0, Moved(7, x, [wrote]), s10);
    tr, es := PathOf(Step(W), s0, s10);
    PathIsRun(W, tr, es);
  }
}
