/**
 Linearizability holds for exactly the sets of writing clients with at most one member: the
 timestamp carries no writer identity, so two concurrent Writes can share one, and Reads that
 follow one another then return first one value and then the other.
 */
module TwoWriters {
  import opened Views
  import opened RegisterSystem
  import opened RegisterRuns
  import opened Runs
  import opened RegisterInvariants
  import opened RegisterOrder
  import opened RegisterTheorems
  import opened Linearizability

  // ----- one view with two servers -----

  const A := Process("a")
  const B := Process("b")
  const BOTH: Installed := Installed({Update(Join, A), Update(Join, B)}, {A, B})

  function Two(clock: nat, ra: Register, rb: Register, ops: seq<Op>, wire: set<(nat, nat)>): State {
    State(clock, map[A := Server(0, ra, {}), B := Server(0, rb, {})], ops, wire, map[], map[], {})
  }

  lemma OneView()
    ensures A != B && QuorumSize(|BOTH.members|) == 2
    ensures Chain([BOTH]) && CachesExact([BOTH])
    ensures Init([BOTH], Two(0, INITIAL, INITIAL, [], {}))
  {
    assert A.addr[0] != B.addr[0];
    forall p
      ensures p in Members(BOTH.entries) <==> p in BOTH.members
    {
      MembersMeaning(BOTH.entries, p);
    }
    assert [BOTH][..0] == [];
  }

  const GO := Step([BOTH])

  lemma BeginStep(c: nat, ra: Register, rb: Register, ops: seq<Op>, wire: set<(nat, nat)>, client: nat, kind: Kind)
    requires forall k | 0 <= k < |ops| && ops[k].client == client :: ops[k].status.Done?
    ensures Reaches(GO, Two(c, ra, rb, ops, wire),
                    Two(c + 1, ra, rb, ops + [Op(client, kind, c, Undecided, Reading(0, map[]))], wire))
  {
    var s, e := Two(c, ra, rb, ops, wire), Begin(client, kind, 0);
    assert Enabled([BOTH], s, e);
    Once(GO, s, e, Next([BOTH], s, e));
  }

  /** Both servers answer operation k and its first phase ends with the answers in `order`. */
  lemma CollectStep(c: nat, ra: Register, rb: Register, ops: seq<Op>, wire: set<(nat, nat)>,
                    k: nat, order: seq<Process>)
    requires k < |ops| && ops[k].status == Reading(0, map[]) && (order == [A, B] || order == [B, A])
    ensures var o := ops[k].(status := Reading(0, map[A := ra, B := rb]));
            var o' := AfterRead(o, order, c + 2);
            Reaches(GO, Two(c, ra, rb, ops, wire),
                    Two(c + 3, ra, rb, ops[k := o'], if o'.status.Writing? then wire + {(k, 0)} else wire))
  {
    OneView();
    var w, s0 := [BOTH], Two(c, ra, rb, ops, wire);
    var s1 := Two(c + 1, ra, rb, ops[k := ops[k].(status := Reading(0, map[A := ra]))], wire);
    var s2 := Two(c + 2, ra, rb, ops[k := ops[k].(status := Reading(0, map[A := ra, B := rb]))], wire);
    assert Next(w, s0, ServeRead(k, A)) == s1;
    Once(GO, s0, ServeRead(k, A), s1);
    assert s1.ops[k].status.answers[B := rb] == map[A := ra, B := rb];
    assert Next(w, s1, ServeRead(k, B)) == s2;
    Go(GO, s0, s1, ServeRead(k, B), s2);
    var s3 := CollectEnds(c, ra, rb, ops, wire, k, order);
    Go(GO, s0, s2, FinishRead(k, order), s3);
  }

  lemma CollectEnds(c: nat, ra: Register, rb: Register, ops: seq<Op>, wire: set<(nat, nat)>,
                    k: nat, order: seq<Process>) returns (s: State)
    requires k < |ops| && ops[k].status == Reading(0, map[]) && (order == [A, B] || order == [B, A])
    ensures var o := ops[k].(status := Reading(0, map[A := ra, B := rb]));
            var o' := AfterRead(o, order, c + 2);
            var s2 := Two(c + 2, ra, rb, ops[k := o], wire);
            && Enabled([BOTH], s2, FinishRead(k, order)) && Next([BOTH], s2, FinishRead(k, order)) == s
            && s == Two(c + 3, ra, rb, ops[k := o'], if o'.status.Writing? then wire + {(k, 0)} else wire)
  {
    OneView();
    var o := ops[k].(status := Reading(0, map[A := ra, B := rb]));
    var s2 := Two(c + 2, ra, rb, ops[k := o], wire);
    s := Next([BOTH], s2, FinishRead(k, order));
    assert ops[k := o][k := AfterRead(o, order, c + 2)] == ops[k := AfterRead(o, order, c + 2)];
  }

  /** Server p acknowledges operation k, which is in its second phase. */
  lemma AckStep(c: nat, ra: Register, rb: Register, ops: seq<Op>, wire: set<(nat, nat)>, k: nat, p: Process)
    requires k < |ops| && (k, 0) in wire && ops[k].choice.Chosen? && (p == A || p == B)
    requires ops[k].status.Writing? && ops[k].status.view == 0
    ensures var m := ops[k].choice.reg;
            Reaches(GO, Two(c, ra, rb, ops, wire),
                    Two(c + 1, if p == A then ApplyWrite(ra, m) else ra, if p == B then ApplyWrite(rb, m) else rb,
                        ops[k := ops[k].(status := Writing(0, ops[k].status.acks + {p}))], wire))
  {
    OneView();
    var s, e, m := Two(c, ra, rb, ops, wire), ServeWrite(k, 0, p), ops[k].choice.reg;
    assert Enabled([BOTH], s, e);
    var t := Next([BOTH], s, e);
    assert t.servers == map[A := Server(0, if p == A then ApplyWrite(ra, m) else ra, {}),
                            B := Server(0, if p == B then ApplyWrite(rb, m) else rb, {})];
    Once(GO, s, e, t);
  }

  /** Both servers acknowledge both Writes, A taking the first one's value and B the second's. */
  lemma CrossWrites(c: nat, o0: Op, o1: Op, wire: set<(nat, nat)>, x: Register, y: Register)
    requires x.ts == y.ts == 1 && (0, 0) in wire && (1, 0) in wire
    requires o0.status == o1.status == Writing(0, {})
    requires o0.choice == Chosen(x) && o1.choice == Chosen(y)
    ensures Reaches(GO, Two(c, INITIAL, INITIAL, [o0, o1], wire),
                    Two(c + 4, x, y, [o0.(status := Writing(0, {A, B})), o1.(status := Writing(0, {A, B}))], wire))
  {
    var a0, a1 := o0.(status := Writing(0, {A})), o1.(status := Writing(0, {B}));
    var b0, b1 := o0.(status := Writing(0, {A, B})), o1.(status := Writing(0, {A, B}));
    assert {} + {A} == {A} && {} + {B} == {B} && {A} + {B} == {A, B} && {B} + {A} == {A, B};
    var s0, s2 := Two(c, INITIAL, INITIAL, [o0, o1], wire), Two(c + 2, x, y, [a0, a1], wire);
    AckStep(c, INITIAL, INITIAL, [o0, o1], wire, 0, A);
    assert [o0, o1][0 := a0] == [a0, o1];
    AckStep(c + 1, x, INITIAL, [a0, o1], wire, 1, B);
    assert [a0, o1][1 := a1] == [a0, a1];
    Concat(GO, s0, Two(c + 1, x, INITIAL, [a0, o1], wire), s2);
    AckStep(c + 2, x, y, [a0, a1], wire, 0, B);
    assert [a0, a1][0 := b0] == [b0, a1];
    AckStep(c + 3, x, y, [b0, a1], wire, 1, A);
    assert [b0, a1][1 := b1] == [b0, b1];
    Concat(GO, s2, Two(c + 3, x, y, [b0, a1], wire), Two(c + 4, x, y, [b0, b1], wire));
    Concat(GO, s0, s2, Two(c + 4, x, y, [b0, b1], wire));
  }

  lemma FinishBoth(c: nat, ra: Register, rb: Register, ops: seq<Op>, wire: set<(nat, nat)>)
    requires |ops| == 2 && ops[0].status == ops[1].status == Writing(0, {A, B})
    ensures Reaches(GO, Two(c, ra, rb, ops, wire),
                    Two(c + 2, ra, rb,
                        [ops[0].(status := Done(0, c, {A, B})), ops[1].(status := Done(0, c + 1, {A, B}))], wire))
  {
    OneView();
    var w, s0 := [BOTH], Two(c, ra, rb, ops, wire);
    var s1 := Two(c + 1, ra, rb, [ops[0].(status := Done(0, c, {A, B})), ops[1]], wire);
    assert Next(w, s0, FinishWrite(0)) == s1;
    Once(GO, s0, FinishWrite(0), s1);
    Go(GO, s0, s1, FinishWrite(1), Next(w, s1, FinishWrite(1)));
  }

  /** What a first phase over both servers finds. */
  lemma Found(ra: Register, rb: Register, order: seq<Process>)
    requires (order == [A, B] || order == [B, A]) && ra.ts == rb.ts >= 0
    ensures var regs := Answered(order, map[A := ra, B := rb]);
            && (forall r | r in regs :: r.ts == ra.ts)
            && (ra.ts > 0 ==> Newest(regs, INITIAL) == if order == [A, B] then ra else rb)
            && (ra.ts == 0 ==> Newest(regs, INITIAL) == INITIAL)
  {
    OneView();
    var regs := Answered(order, map[A := ra, B := rb]);
    assert regs == if order == [A, B] then [ra, rb] else [rb, ra];
    assert regs[1..][1..] == [];
  }

  function Written(c: nat, value: Value, start: nat, status: Status): Op {
    Op(c, Write(value), start, Chosen(Register(1, value)), status)
  }

  function Returned(c: nat, value: Value, start: nat, end: nat): Op {
    Op(c, Read, start, Chosen(Register(1, value)), Done(0, end, {A, B}))
  }

  const X := Data("x")
  const Y := Data("y")
  const WIRE: set<(nat, nat)> := {(0, 0), (1, 0)}

  function WritesDone(c1: nat, c2: nat): seq<Op> {
    [Written(c1, X, 0, Done(0, 12, {A, B})), Written(c2, Y, 1, Done(0, 13, {A, B}))]
  }

  function Started(c: nat, value: Value, start: nat): Op {
    Op(c, Write(value), start, Undecided, Reading(0, map[]))
  }

  function Draft(c: nat, value: Value, start: nat): Op {
    Written(c, value, start, Writing(0, {}))
  }

  lemma BothBegin(c1: nat, c2: nat)
    requires c1 != c2
    ensures Reaches(GO, Two(0, INITIAL, INITIAL, [], {}),
                    Two(2, INITIAL, INITIAL, [Started(c1, X, 0), Started(c2, Y, 1)], {}))
  {
    var r0, o0, o1 := INITIAL, Started(c1, X, 0), Started(c2, Y, 1);
    BeginStep(0, r0, r0, [], {}, c1, Write(X));
    assert [] + [o0] == [o0];
    BeginStep(1, r0, r0, [o0], {}, c2, Write(Y));
    assert [o0] + [o1] == [o0, o1];
    Concat(GO, Two(0, r0, r0, [], {}), Two(1, r0, r0, [o0], {}), Two(2, r0, r0, [o0, o1], {}));
  }

  /** The first phase of a Write on fresh servers ends with timestamp 1. */
  lemma DrawStep(c: nat, ops: seq<Op>, wire: set<(nat, nat)>, k: nat, client: nat, value: Value, start: nat)
    requires k < |ops| && ops[k] == Started(client, value, start)
    ensures Reaches(GO, Two(c, INITIAL, INITIAL, ops, wire),
                    Two(c + 3, INITIAL, INITIAL, ops[k := Draft(client, value, start)], wire + {(k, 0)}))
  {
    Found(INITIAL, INITIAL, [A, B]);
    CollectStep(c, INITIAL, INITIAL, ops, wire, k, [A, B]);
  }

  /** Both first phases end before either server is written: both Writes draw timestamp 1. */
  lemma BothDraw(c1: nat, c2: nat)
    ensures Reaches(GO, Two(2, INITIAL, INITIAL, [Started(c1, X, 0), Started(c2, Y, 1)], {}),
                    Two(8, INITIAL, INITIAL, [Draft(c1, X, 0), Draft(c2, Y, 1)], WIRE))
  {
    var ops0 := [Started(c1, X, 0), Started(c2, Y, 1)];
    var ops1 := ops0[0 := Draft(c1, X, 0)];
    DrawStep(2, ops0, {}, 0, c1, X, 0);
    DrawStep(5, ops1, {} + {(0, 0)}, 1, c2, Y, 1);
    var s1 := Two(5, INITIAL, INITIAL, ops1, {} + {(0, 0)});
    var s2 := Two(8, INITIAL, INITIAL, ops1[1 := Draft(c2, Y, 1)], {} + {(0, 0)} + {(1, 0)});
    Concat(GO, Two(2, INITIAL, INITIAL, ops0, {}), s1, s2);
    assert ops1[1 := Draft(c2, Y, 1)] == [Draft(c1, X, 0), Draft(c2, Y, 1)];
    assert {} + {(0, 0)} + {(1, 0)} == WIRE;
  }

  lemma BothApply(c1: nat, c2: nat)
    ensures Reaches(GO, Two(8, INITIAL, INITIAL, [Draft(c1, X, 0), Draft(c2, Y, 1)], WIRE),
                    Two(14, Register(1, X), Register(1, Y), WritesDone(c1, c2), WIRE))
  {
    var rx, ry, n0, n1 := Register(1, X), Register(1, Y), Draft(c1, X, 0), Draft(c2, Y, 1);
    var f0, f1 := Written(c1, X, 0, Writing(0, {A, B})), Written(c2, Y, 1, Writing(0, {A, B}));
    CrossWrites(8, n0, n1, WIRE, rx, ry);
    FinishBoth(12, rx, ry, [f0, f1], WIRE);
    Concat(GO, Two(8, INITIAL, INITIAL, [n0, n1], WIRE), Two(12, rx, ry, [f0, f1], WIRE),
           Two(14, rx, ry, WritesDone(c1, c2), WIRE));
  }

  /** A Read of both servers returns the content of the one that answers first. */
  lemma ReadStep(c: nat, ops: seq<Op>, client: nat, order: seq<Process>)
    requires forall k | 0 <= k < |ops| && ops[k].client == client :: ops[k].status.Done?
    requires order == [A, B] || order == [B, A]
    ensures var rx, ry := Register(1, X), Register(1, Y);
            Reaches(GO, Two(c, rx, ry, ops, WIRE),
                    Two(c + 4, rx, ry, ops + [Returned(client, if order == [A, B] then X else Y, c, c + 3)], WIRE))
  {
    var rx, ry := Register(1, X), Register(1, Y);
    var o := Op(client, Read, c, Undecided, Reading(0, map[]));
    var done := Returned(client, if order == [A, B] then X else Y, c, c + 3);
    BeginStep(c, rx, ry, ops, WIRE, client, Read);
    Found(rx, ry, order);
    CollectStep(c + 1, rx, ry, ops + [o], WIRE, |ops|, order);
    assert (ops + [o])[|ops| := done] == ops + [done];
    assert AsSet(order) == {A, B};
    Concat(GO, Two(c, rx, ry, ops, WIRE), Two(c + 1, rx, ry, ops + [o], WIRE), Two(c + 4, rx, ry, ops + [done], WIRE));
  }

  function Inversion(c1: nat, c2: nat): seq<Op> {
    WritesDone(c1, c2) + [Returned(c1, X, 14, 17)] + [Returned(c1, Y, 18, 21)]
  }

  lemma BothRead(c1: nat, c2: nat)
    ensures var rx, ry := Register(1, X), Register(1, Y);
            Reaches(GO, Two(14, rx, ry, WritesDone(c1, c2), WIRE), Two(22, rx, ry, Inversion(c1, c2), WIRE))
  {
    var rx, ry, ops0 := Register(1, X), Register(1, Y), WritesDone(c1, c2);
    var ops1 := ops0 + [Returned(c1, X, 14, 17)];
    ReadStep(14, ops0, c1, [A, B]);
    ReadStep(18, ops1, c1, [B, A]);
    Concat(GO, Two(14, rx, ry, ops0, WIRE), Two(18, rx, ry, ops1, WIRE),
           Two(22, rx, ry, ops1 + [Returned(c1, Y, 18, 21)], WIRE));
  }

  /** Two clients write concurrently, and after both Writes have returned one reads X and then Y. */
  lemma InversionHappens(c1: nat, c2: nat) returns (tr: seq<State>, es: seq<Event>)
    requires c1 != c2
    ensures Run([BOTH], tr, es) && tr[|es|].ops == Inversion(c1, c2)
  {
    var rx, ry, s0 := Register(1, X), Register(1, Y), Two(0, INITIAL, INITIAL, [], {});
    var s1 := Two(2, INITIAL, INITIAL, [Started(c1, X, 0), Started(c2, Y, 1)], {});
    var s2 := Two(8, INITIAL, INITIAL, [Draft(c1, X, 0), Draft(c2, Y, 1)], WIRE);
    var s3, s4 := Two(14, rx, ry, WritesDone(c1, c2), WIRE), Two(22, rx, ry, Inversion(c1, c2), WIRE);
    BothBegin(c1, c2);
    BothDraw(c1, c2);
    BothApply(c1, c2);
    BothRead(c1, c2);
    Concat(GO, s0, s1, s2);
    Concat(GO, s0, s2, s3);
    Concat(GO, s0, s3, s4);
    OneView();
    tr, es := PathOf(GO, s0, s4);
    PathIsRun([BOTH], tr, es);
  }

  /** If no Write lies between two positions, the register holds the same value at both. */
  lemma {:induction false} NoWriteBetween(ops: seq<Op>, order: seq<nat>, i: nat, j: nat)
    requires i <= j <= |order| && forall n | 0 <= n < |order| :: order[n] < |ops|
    requires forall n | i <= n < j :: ops[order[n]].kind.Read?
    ensures ValueAfter(ops, order[..i]) == ValueAfter(ops, order[..j])
    decreases j
  {
    if i < j {
      assert order[..j][..j - 1] == order[..j - 1];
      NoWriteBetween(ops, order, i, j - 1);
    }
  }

  lemma Position(ops: seq<Op>, order: seq<nat>, k: nat) returns (i: nat)
    requires Linearizes(ops, order) && k < |ops| && ops[k].status.Done?
    ensures i < |order| && order[i] == k
  {
    assert k in order;
    i :| i < |order| && order[i] == k;
  }

  lemma BeforeMeansEarlier(ops: seq<Op>, order: seq<nat>, i: nat, j: nat)
    requires Linearizes(ops, order) && i < |order| && j < |order| && Before(ops[order[i]], ops[order[j]])
    requires ops[order[i]].start < ops[order[i]].status.end
    ensures i < j
  {
  }

  /** Reads with no Write placed between them return the same value. */
  lemma SameAnswer(ops: seq<Op>, order: seq<nat>, i: nat, j: nat)
    requires Linearizes(ops, order) && i < j < |order|
    requires ops[order[i]].kind.Read? && ops[order[j]].kind.Read?
    requires forall n | i <= n < j :: ops[order[n]].kind.Read?
    ensures ops[order[i]].choice.reg.value == ops[order[j]].choice.reg.value
  {
    NoWriteBetween(ops, order, i, j);
  }

  lemma OnlyReads(ops: seq<Op>, order: seq<nat>, w0: nat, w1: nat, i: nat, j: nat)
    requires |ops| == 4 && ops[2].kind.Read? && ops[3].kind.Read?
    requires Distinct(order) && w0 < i && w1 < i && i < j < |order| && order[w0] == 0 && order[w1] == 1
    requires forall n | 0 <= n < |order| :: order[n] < 4
    ensures forall n | i <= n < j :: ops[order[n]].kind.Read?
  {
    forall n | i <= n < j
      ensures ops[order[n]].kind.Read?
    {
      assert order[n] != order[w0] && order[n] != order[w1];
    }
  }

  /** Where a linearization places the four operations. */
  lemma Places(ops: seq<Op>, order: seq<nat>) returns (r0: nat, r1: nat)
    requires |ops| == 4 && ops[2].kind.Read? && ops[3].kind.Read? && Linearizes(ops, order)
    requires forall k | 0 <= k < 4 :: ops[k].status.Done? && ops[k].start < ops[k].status.end
    requires Before(ops[0], ops[2]) && Before(ops[1], ops[2]) && Before(ops[2], ops[3])
    ensures r0 < r1 < |order| && order[r0] == 2 && order[r1] == 3
    ensures forall n | r0 <= n < r1 :: order[n] < 4 && ops[order[n]].kind.Read?
  {
    var w0 := Position(ops, order, 0);
    var w1 := Position(ops, order, 1);
    r0 := Position(ops, order, 2);
    r1 := Position(ops, order, 3);
    BeforeMeansEarlier(ops, order, w0, r0);
    BeforeMeansEarlier(ops, order, w1, r0);
    BeforeMeansEarlier(ops, order, r0, r1);
    OnlyReads(ops, order, w0, w1, r0, r1);
  }

  /** Two returned Writes, then two Reads one after the other with different results. */
  lemma TwoAnswersAreNotLinearizable(ops: seq<Op>, order: seq<nat>)
    requires |ops| == 4 && ops[0].kind.Write? && ops[1].kind.Write? && ops[2].kind.Read? && ops[3].kind.Read?
    requires forall k | 0 <= k < 4 ::
               ops[k].status.Done? && ops[k].start < ops[k].status.end && ops[k].choice.Chosen?
    requires Before(ops[0], ops[2]) && Before(ops[1], ops[2]) && Before(ops[2], ops[3])
    requires ops[2].choice.reg.value != ops[3].choice.reg.value
    ensures !Linearizes(ops, order)
  {
    if Linearizes(ops, order) {
      var r0, r1 := Places(ops, order);
      SameAnswer(ops, order, r0, r1);
      assert false;
    }
  }

  lemma InversionIsNotLinearizable(c1: nat, c2: nat)
    ensures !Linearizable(Inversion(c1, c2))
  {
    assert X != Y by { assert X.text[0] != Y.text[0]; }
    var ops := Inversion(c1, c2);
    forall order ensures !Linearizes(ops, order) { TwoAnswersAreNotLinearizable(ops, order); }
  }

  /** The exact condition: every run in which only clients of `writers` write is linearizable
      if and only if `writers` has at most one member. */
  lemma LinearizableIffOneWriter(writers: set<nat>)
    ensures (forall w, tr: seq<State>, es: seq<Event> | Run(w, tr, es) && WritersWithin(tr[|es|].ops, writers) ::
               Linearizable(tr[|es|].ops))
            <==> |writers| <= 1
  {
    if |writers| <= 1 {
      forall w, tr: seq<State>, es: seq<Event> | Run(w, tr, es) && WritersWithin(tr[|es|].ops, writers)
        ensures Linearizable(tr[|es|].ops)
      {
        var c: nat :| writers == {} || c in writers;
        if writers != {} { assert |writers - {c}| == 0; }
        assert WritersWithin(tr[|es|].ops, {c});
        OneWriterLinearizes(w, tr, es, |es|, c);
      }
    } else {
      var c1 :| c1 in writers;
      assert |writers - {c1}| >= 1;
      var c2 :| c2 in writers - {c1};
      var tr, es := InversionHappens(c1, c2);
      InversionIsNotLinearizable(c1, c2);
      assert WritersWithin(tr[|es|].ops, writers);
    }
  }
}
