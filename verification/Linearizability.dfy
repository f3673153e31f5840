/**
 Linearizability of the register, through any number of view installs, when at most one client
 writes: the operations can be put in one order that respects real time and in which every Read
 returns the value of the last Write before it.
 */
module Linearizability {
  import opened Views
  import opened RegisterSystem
  import opened RegisterInvariants
  import opened RegisterOrder
  import opened RegisterTheorems

  // ----- where values come from -----

  /** Register content r is the initial content or what some Write chose to write. */
  ghost predicate Known(ops: seq<Op>, r: Register) {
    r == INITIAL || exists k :: 0 <= k < |ops| && ops[k].kind.Write? && ops[k].choice == Chosen(r)
  }

  ghost predicate OpKnown(ops: seq<Op>, k: nat)
    requires k < |ops|
  {
    && (ops[k].choice.Chosen? ==> Known(ops, ops[k].choice.reg))
    && (ops[k].kind.Write? && ops[k].choice.Chosen? ==> ops[k].choice.reg.ts >= 1)
    && (ops[k].status.Reading? ==>
          forall p {:trigger ops[k].status.answers[p]} | p in ops[k].status.answers ::
            Known(ops, ops[k].status.answers[p]))
  }

  /** A client's operations follow one another, and none follows a failed one. */
  ghost predicate InSequence(ops: seq<Op>, a: nat, b: nat)
    requires a < b < |ops|
  {
    ops[a].client == ops[b].client ==> Before(ops[a], ops[b])
  }

  ghost predicate ValuesOk(s: State) {
    && (forall p {:trigger s.servers[p]} | p in s.servers :: Known(s.ops, s.servers[p].reg))
    && (forall k {:trigger s.sent[k]} | k in s.sent :: Known(s.ops, s.sent[k].reg))
    && (forall k: nat {:trigger OpKnown(s.ops, k)} | k < |s.ops| :: OpKnown(s.ops, k))
    && (forall a: nat, b: nat {:trigger InSequence(s.ops, a, b)} | a < b < |s.ops| :: InSequence(s.ops, a, b))
  }

  lemma KnownStays(w: seq<Installed>, s: State, e: Event, r: Register)
    requires Inv(w, s) && Enabled(w, s, e) && Known(s.ops, r)
    ensures Known(Next(w, s, e).ops, r)
  {
    if r != INITIAL {
      var k :| 0 <= k < |s.ops| && s.ops[k].kind.Write? && s.ops[k].choice == Chosen(r);
      OpHistory(w, s, e, k);
      var ops' := Next(w, s, e).ops;
      assert ops'[k].kind.Write? && ops'[k].choice == Chosen(r);
    }
  }

  lemma ServerKnown(w: seq<Installed>, s: State, e: Event, p: Process)
    requires Inv(w, s) && ValuesOk(s) && Enabled(w, s, e) && p in s.servers
    ensures p in NextServers(w, s, e) && Known(s.ops, NextServers(w, s, e)[p].reg)
  {
    if e.ServeWrite? && e.p == p {
      assert OpKnown(s.ops, e.op);
      assert Known(s.ops, s.servers[p].reg);
    } else if e.Install? && e.p == p {
      InstallQuorum(w, s, e);
      InstallMerges(w, s, e, e.order[0]);
      var regs := SentRegs(e.order, e.step, s.sent);
      var r := Newest(regs, Register(-1, Nil));
      assert r in regs;
      var i :| 0 <= i < |regs| && regs[i] == r;
      assert r == s.sent[(e.order[i], e.step)].reg;
    } else {
      assert NextServers(w, s, e)[p].reg == s.servers[p].reg;
    }
  }

  /** What a first phase ends with is known. */
  lemma FinalKnown(w: seq<Installed>, s: State, e: Event)
    requires Inv(w, s) && ValuesOk(s) && e.FinishRead? && Enabled(w, s, e)
    ensures Known(s.ops, Newest(Answered(e.order, s.ops[e.op].status.answers), INITIAL))
  {
    assert OpKnown(s.ops, e.op);
    var regs := Answered(e.order, s.ops[e.op].status.answers);
    var r := Newest(regs, INITIAL);
    if r != INITIAL {
      var i :| 0 <= i < |regs| && regs[i] == r;
      assert r == s.ops[e.op].status.answers[e.order[i]];
    }
  }

  lemma ChoiceKnown(w: seq<Installed>, s: State, e: Event, k: nat)
    requires Inv(w, s) && ValuesOk(s) && Enabled(w, s, e) && k < |Next(w, s, e).ops|
    requires Next(w, s, e).ops[k].choice.Chosen?
    ensures var o := Next(w, s, e).ops[k];
            Known(Next(w, s, e).ops, o.choice.reg) && (o.kind.Write? ==> o.choice.reg.ts >= 1)
  {
    var ops' := Next(w, s, e).ops;
    if k < |s.ops| {
      OpHistory(w, s, e, k);
      assert OpKnown(s.ops, k);
      if s.ops[k].choice.Chosen? {
        KnownStays(w, s, e, s.ops[k].choice.reg);
      } else {
        FinalKnown(w, s, e);
        if ops'[k].kind.Write? {
          assert ops'[k].choice == Chosen(ops'[k].choice.reg);
        } else {
          KnownStays(w, s, e, ops'[k].choice.reg);
        }
      }
    }
  }

  lemma AnswersKnown(w: seq<Installed>, s: State, e: Event, k: nat, p: Process)
    requires Inv(w, s) && ValuesOk(s) && Enabled(w, s, e) && k < |Next(w, s, e).ops|
    requires Next(w, s, e).ops[k].status.Reading? && p in Next(w, s, e).ops[k].status.answers
    ensures Known(Next(w, s, e).ops, Next(w, s, e).ops[k].status.answers[p])
  {
    assert k < |s.ops|;
    assert OpKnown(s.ops, k);
    if !Touches(e, k) { Untouched(w, s, e, k); }
    if e.ServeRead? && e.op == k && p == e.p {
      KnownStays(w, s, e, s.servers[p].reg);
    } else {
      KnownStays(w, s, e, s.ops[k].status.answers[p]);
    }
  }

  lemma SequenceKept(w: seq<Installed>, s: State, e: Event, a: nat, b: nat)
    requires Inv(w, s) && ValuesOk(s) && Enabled(w, s, e) && a < b < |Next(w, s, e).ops|
    ensures InSequence(Next(w, s, e).ops, a, b)
  {
    OpHistory(w, s, e, a);
    assert OpOk(w, s, a);
    if b < |s.ops| {
      OpHistory(w, s, e, b);
      assert InSequence(s.ops, a, b);
    }
  }

  lemma StepValues(w: seq<Installed>, s: State, e: Event)
    requires Inv(w, s) && ValuesOk(s) && Enabled(w, s, e)
    ensures ValuesOk(Next(w, s, e))
  {
    var s' := Next(w, s, e);
    forall p | p in s'.servers
      ensures Known(s'.ops, s'.servers[p].reg)
    {
      ServerKnown(w, s, e, p);
      KnownStays(w, s, e, s'.servers[p].reg);
    }
    forall k | k in s'.sent
      ensures Known(s'.ops, s'.sent[k].reg)
    {
      if k in s.sent && s'.sent[k] == s.sent[k] {
        KnownStays(w, s, e, s.sent[k].reg);
      } else {
        KnownStays(w, s, e, s.servers[e.p].reg);
      }
    }
    forall k: nat | k < |s'.ops|
      ensures OpKnown(s'.ops, k)
    {
      if s'.ops[k].choice.Chosen? { ChoiceKnown(w, s, e, k); }
      if s'.ops[k].status.Reading? {
        forall p | p in s'.ops[k].status.answers
          ensures Known(s'.ops, s'.ops[k].status.answers[p])
        {
          AnswersKnown(w, s, e, k, p);
        }
      }
    }
    forall a: nat, b: nat | a < b < |s'.ops|
      ensures InSequence(s'.ops, a, b)
    {
      SequenceKept(w, s, e, a, b);
    }
  }

  lemma {:induction false} RunValues(w: seq<Installed>, tr: seq<State>, es: seq<Event>, i: nat)
    requires Run(w, tr, es) && i < |tr|
    ensures ValuesOk(tr[i])
  {
    if i > 0 {
      RunInv(w, tr, es, i - 1);
      RunValues(w, tr, es, i - 1);
      assert Enabled(w, tr[i - 1], es[i - 1]) && tr[i] == Next(w, tr[i - 1], es[i - 1]);
      StepValues(w, tr[i - 1], es[i - 1]);
    }
  }

  // ----- linearizations -----

  /** The operations an order must place: all that returned, and it may place Writes that have
      chosen their timestamp but have not returned (pending, or failed). */
  ghost predicate Effective(o: Op) {
    o.choice.Chosen? && (o.status.Done? || o.kind.Write?)
  }

  /** The register content after the operations `order`, from the initial value. */
  ghost function ValueAfter(ops: seq<Op>, order: seq<nat>): Value
    requires forall i | 0 <= i < |order| :: order[i] < |ops|
  {
    if order == [] then Nil
    else
      var last := ops[order[|order| - 1]];
      if last.kind.Write? then last.kind.value else ValueAfter(ops, order[..|order| - 1])
  }

  ghost predicate Linearizes(ops: seq<Op>, order: seq<nat>) {
    && Distinct(order)
    && (forall i | 0 <= i < |order| :: order[i] < |ops| && Effective(ops[order[i]]))
    && (forall k | 0 <= k < |ops| && ops[k].status.Done? :: k in order)
    && (forall i, j | 0 <= i < j < |order| :: !Before(ops[order[j]], ops[order[i]]))
    && (forall i | 0 <= i < |order| && ops[order[i]].kind.Read? ::
          ops[order[i]].choice.reg.value == ValueAfter(ops, order[..i]))
  }

  ghost predicate Linearizable(ops: seq<Op>) {
    exists order :: Linearizes(ops, order)
  }

  /** Timestamp first; at equal timestamps the Write before the Reads, and Reads by return. */
  ghost predicate Less(ops: seq<Op>, a: nat, b: nat)
    requires a < |ops| && b < |ops| && Effective(ops[a]) && Effective(ops[b])
  {
    var x, y := ops[a], ops[b];
    if x.choice.reg.ts != y.choice.reg.ts then x.choice.reg.ts < y.choice.reg.ts
    else if x.kind.Write? != y.kind.Write? then x.kind.Write?
    else if x.kind.Read? && x.status.end != y.status.end then x.status.end < y.status.end
    else a < b
  }

  ghost predicate Placed(ops: seq<Op>, order: seq<nat>) {
    forall i | 0 <= i < |order| :: order[i] < |ops| && Effective(ops[order[i]])
  }

  ghost predicate Sorted(ops: seq<Op>, order: seq<nat>)
    requires Placed(ops, order)
  {
    forall i, j | 0 <= i < j < |order| :: Less(ops, order[i], order[j])
  }

  ghost function Insert(ops: seq<Op>, order: seq<nat>, k: nat): (r: seq<nat>)
    requires Placed(ops, order) && Sorted(ops, order) && k < |ops| && Effective(ops[k]) && k !in order
    ensures Placed(ops, r) && Sorted(ops, r)
    ensures forall x :: x in r <==> x == k || x in order
  {
    if order == [] then [k]
    else if Less(ops, k, order[0]) then [k] + order
    else
      var rest := Insert(ops, order[1..], k);
      assert order == [order[0]] + order[1..];
      assert forall x | x in rest :: Less(ops, order[0], x);
      [order[0]] + rest
  }

  ghost function Arrange(ops: seq<Op>, n: nat): (r: seq<nat>)
    requires n <= |ops|
    ensures Placed(ops, r) && Sorted(ops, r)
    ensures forall x: nat :: x in r <==> x < n && Effective(ops[x])
  {
    if n == 0 then []
    else if Effective(ops[n - 1]) then Insert(ops, Arrange(ops, n - 1), n - 1)
    else Arrange(ops, n - 1)
  }

  ghost predicate DistinctWrites(ops: seq<Op>) {
    forall a: nat, b: nat ::
      a < b < |ops| && ops[a].kind.Write? && ops[b].kind.Write? && ops[a].choice.Chosen? && ops[b].choice.Chosen?
      ==> ops[a].choice.reg.ts != ops[b].choice.reg.ts
  }

  /** The sorted order respects real time. */
  lemma SortedRespectsRealTime(w: seq<Installed>, s: State, a: nat, b: nat)
    requires Inv(w, s) && a < |s.ops| && b < |s.ops| && Effective(s.ops[a]) && Effective(s.ops[b])
    requires Less(s.ops, a, b)
    ensures !Before(s.ops[b], s.ops[a])
  {
    assert OrderOk(s.ops[b], s.ops[a]) && OpOk(w, s, a) && OpOk(w, s, b);
  }

  /** After a sorted prefix whose last Write has index k, the register holds k's value. */
  lemma {:induction false} LastWriteWins(ops: seq<Op>, order: seq<nat>, at: nat)
    requires Placed(ops, order) && at < |order| && ops[order[at]].kind.Write?
    requires forall i | at < i < |order| :: ops[order[i]].kind.Read?
    ensures ValueAfter(ops, order) == ops[order[at]].kind.value
  {
    var n := |order| - 1;
    if at < n {
      assert order[..n][at] == order[at];
      LastWriteWins(ops, order[..n], at);
    }
  }

  lemma {:induction false} NoWriteMeansNil(ops: seq<Op>, order: seq<nat>)
    requires Placed(ops, order)
    requires forall i | 0 <= i < |order| :: ops[order[i]].kind.Read?
    ensures ValueAfter(ops, order) == Nil
  {
    if order != [] { NoWriteMeansNil(ops, order[..|order| - 1]); }
  }

  /** In the sorted order a Read returns the value of the last Write before it. */
  lemma ReadsSeeLastWrite(w: seq<Installed>, s: State, order: seq<nat>, i: nat)
    requires Inv(w, s) && ValuesOk(s) && DistinctWrites(s.ops)
    requires Placed(s.ops, order) && Sorted(s.ops, order)
    requires forall k: nat | k < |s.ops| && Effective(s.ops[k]) :: k in order
    requires i < |order| && s.ops[order[i]].kind.Read?
    ensures s.ops[order[i]].choice.reg.value == ValueAfter(s.ops, order[..i])
  {
    var ops, r, prefix := s.ops, order[i], order[..i];
    assert OpKnown(ops, r);
    var reg := ops[r].choice.reg;
    if reg == INITIAL {
      forall j | 0 <= j < |prefix|
        ensures ops[prefix[j]].kind.Read?
      {
        assert Less(ops, order[j], order[i]);
        assert OpKnown(ops, order[j]);
      }
      NoWriteMeansNil(ops, prefix);
    } else {
      var k :| 0 <= k < |ops| && ops[k].kind.Write? && ops[k].choice == Chosen(reg);
      assert Effective(ops[k]);
      var at :| 0 <= at < |order| && order[at] == k;
      assert at != i;
      assert at < i;
      forall j | at < j < |prefix|
        ensures ops[prefix[j]].kind.Read?
      {
        assert Less(ops, order[at], order[j]) && Less(ops, order[j], order[i]);
      }
      LastWriteWins(ops, prefix, at);
      assert OpOk(w, s, k);
    }
  }

  /** Any reachable history whose Writes have different timestamps is linearizable. */
  lemma DistinctWritesLinearize(w: seq<Installed>, tr: seq<State>, es: seq<Event>, i: nat)
    requires Run(w, tr, es) && i < |tr| && DistinctWrites(tr[i].ops)
    ensures Linearizable(tr[i].ops)
  {
    RunInv(w, tr, es, i);
    RunValues(w, tr, es, i);
    var s := tr[i];
    var order := Arrange(s.ops, |s.ops|);
    forall k | 0 <= k < |s.ops| && s.ops[k].status.Done?
      ensures k in order
    {
      assert OpOk(w, s, k);
    }
    forall i, j | 0 <= i < j < |order|
      ensures !Before(s.ops[order[j]], s.ops[order[i]]) && order[i] != order[j]
    {
      assert Less(s.ops, order[i], order[j]);
      SortedRespectsRealTime(w, s, order[i], order[j]);
    }
    forall i | 0 <= i < |order| && s.ops[order[i]].kind.Read?
      ensures s.ops[order[i]].choice.reg.value == ValueAfter(s.ops, order[..i])
    {
      ReadsSeeLastWrite(w, s, order, i);
    }
    assert Linearizes(s.ops, order);
  }

  // ----- one writing client -----

  ghost predicate WritersWithin(ops: seq<Op>, writers: set<nat>) {
    forall k | 0 <= k < |ops| && ops[k].kind.Write? :: ops[k].client in writers
  }

  /** With one writing client no two values ever carry the same timestamp: the next Write starts
      only after the previous one returned, and never after a failed one. */
  lemma OneWriterDistinctWrites(w: seq<Installed>, tr: seq<State>, es: seq<Event>, i: nat, c: nat)
    requires Run(w, tr, es) && i < |tr| && WritersWithin(tr[i].ops, {c})
    ensures DistinctWrites(tr[i].ops)
  {
    RunInv(w, tr, es, i);
    RunValues(w, tr, es, i);
    var s := tr[i];
    forall a: nat, b: nat |
      a < b < |s.ops| && s.ops[a].kind.Write? && s.ops[b].kind.Write?
      && s.ops[a].choice.Chosen? && s.ops[b].choice.Chosen?
      ensures s.ops[a].choice.reg.ts != s.ops[b].choice.reg.ts
    {
      assert InSequence(s.ops, a, b) && OrderOk(s.ops[a], s.ops[b]);
    }
  }

  /** So any two register contents with one timestamp, on any servers, are the same content. */
  lemma OneValuePerTimestamp(
      w: seq<Installed>, tr: seq<State>, es: seq<Event>, i: nat, c: nat, p: Process, q: Process)
    requires Run(w, tr, es) && i < |tr| && WritersWithin(tr[i].ops, {c})
    requires p in tr[i].servers && q in tr[i].servers
    ensures tr[i].servers[p].reg.ts == tr[i].servers[q].reg.ts ==> tr[i].servers[p].reg == tr[i].servers[q].reg
  {
    RunValues(w, tr, es, i);
    OneWriterDistinctWrites(w, tr, es, i, c);
    var s := tr[i];
    if s.servers[p].reg.ts == s.servers[q].reg.ts { KnownDetermined(s, s.servers[p].reg, s.servers[q].reg); }
  }

  lemma KnownDetermined(s: State, r: Register, r': Register)
    requires ValuesOk(s) && DistinctWrites(s.ops) && Known(s.ops, r) && Known(s.ops, r') && r.ts == r'.ts
    ensures r == r'
  {
    if r != INITIAL && r' != INITIAL {
      var a :| 0 <= a < |s.ops| && s.ops[a].kind.Write? && s.ops[a].choice == Chosen(r);
      var b :| 0 <= b < |s.ops| && s.ops[b].kind.Write? && s.ops[b].choice == Chosen(r');
      assert a == b;
    } else if r != INITIAL {
      WriteIsPositive(s, r);
    } else if r' != INITIAL {
      WriteIsPositive(s, r');
    }
  }

  lemma WriteIsPositive(s: State, r: Register)
    requires ValuesOk(s) && Known(s.ops, r) && r != INITIAL
    ensures r.ts >= 1
  {
    var a :| 0 <= a < |s.ops| && s.ops[a].kind.Write? && s.ops[a].choice == Chosen(r);
    assert OpKnown(s.ops, a);
  }

  /** The guarantee of the documentation, for one writing client and any readers. */
  lemma OneWriterLinearizes(w: seq<Installed>, tr: seq<State>, es: seq<Event>, i: nat, c: nat)
    requires Run(w, tr, es) && i < |tr| && WritersWithin(tr[i].ops, {c})
    ensures Linearizable(tr[i].ops)
  {
    OneWriterDistinctWrites(w, tr, es, i, c);
    DistinctWritesLinearize(w, tr, es, i);
  }
}
