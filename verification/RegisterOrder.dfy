/**
 Timestamps follow real time: for every run, any number of clients and any chain of installed
 views, an operation that starts after another has returned gets a timestamp at least as high,
 and a strictly higher one if it is a Write.
 */
module RegisterOrder {
  import opened Views
  import opened RegisterSystem
  import opened RegisterInvariants

  /** Server p answered an operation begun at `start`, in view v, with timestamp t. */
  ghost predicate AnswerOk(w: seq<Installed>, s: State, p: Process, v: nat, t: int, start: nat) {
    Attests(w, s, p, v, t) && ((p, v) in s.sent ==> start <= s.sent[(p, v)].at)
  }

  ghost predicate OpOk(w: seq<Installed>, s: State, k: nat)
    requires k < |s.ops|
  {
    var o := s.ops[k];
    && o.start < s.clock
    && (o.status.Writing? || o.status.Done? ==> o.choice.Chosen?)
    && (o.choice.Chosen? ==> o.choice.reg.ts >= 0 && (o.kind.Write? ==> o.choice.reg.value == o.kind.value))
    && match o.status
       case Reading(v, answers) =>
         && v < |w| && o.choice.Undecided?
         && forall p {:trigger answers[p]} | p in answers ::
              answers[p].ts >= 0 && AnswerOk(w, s, p, v, answers[p].ts, o.start)
       case Writing(v, acks) =>
         && v < |w|
         && forall p {:trigger p in acks} | p in acks :: AnswerOk(w, s, p, v, o.choice.reg.ts, o.start)
       case Done(v, end, voters) =>
         && v < |w| && o.start < end < s.clock && IsQuorum(voters, w[v].members)
         && (forall p {:trigger Attests(w, s, p, v, o.choice.reg.ts)} | p in voters ::
               Attests(w, s, p, v, o.choice.reg.ts))
         && (v > 0 ==> InstalledBefore(s, v, end))
       case Failed => true
  }

  /** Operation a returned before operation b started. */
  ghost predicate Before(a: Op, b: Op) {
    a.status.Done? && a.status.end < b.start
  }

  /** What a returned operation means for the answers a later one collects. */
  ghost predicate FreshOk(a: Op, b: Op) {
    Before(a, b) && a.choice.Chosen? && b.status.Reading? ==>
      forall p {:trigger b.status.answers[p]} | p in b.status.answers ::
        (b.status.view == a.status.view && p in a.status.voters) || b.status.view > a.status.view ==>
          b.status.answers[p].ts >= a.choice.reg.ts
  }

  ghost predicate OrderOk(a: Op, b: Op) {
    Before(a, b) && a.choice.Chosen? && b.choice.Chosen? ==>
      a.choice.reg.ts <= b.choice.reg.ts && (b.kind.Write? ==> a.choice.reg.ts < b.choice.reg.ts)
  }

  ghost predicate Inv(w: seq<Installed>, s: State) {
    && Grounded(w, s)
    && (forall k: nat {:trigger OpOk(w, s, k)} | k < |s.ops| :: OpOk(w, s, k))
    && (forall a: nat, b: nat {:trigger FreshOk(s.ops[a], s.ops[b])} | a < |s.ops| && b < |s.ops| ::
          FreshOk(s.ops[a], s.ops[b]))
    && (forall a: nat, b: nat {:trigger OrderOk(s.ops[a], s.ops[b])} | a < |s.ops| && b < |s.ops| ::
          OrderOk(s.ops[a], s.ops[b]))
  }

  // ----- operations the step does not touch -----

  lemma AnswerStable(w: seq<Installed>, s: State, s': State, p: Process, v: nat, t: int, start: nat)
    requires Extends(w, s, s') && AnswerOk(w, s, p, v, t, start) && start < s.clock
    ensures AnswerOk(w, s', p, v, t, start)
  {
    AttestsStable(w, s, s', p, v, t);
    assert SentStep(s, s', (p, v));
  }

  lemma InstalledBeforeStable(w: seq<Installed>, s: State, s': State, j: nat, T: nat)
    requires Extends(w, s, s') && InstalledBefore(s, j, T)
    ensures InstalledBefore(s', j, T)
  {
    var p :| (p, j) in s.origin && s.origin[(p, j)].at < T;
    assert OriginStep(s, s', (p, j));
    assert (p, j) in s'.origin;
  }

  lemma OpStable(w: seq<Installed>, s: State, s': State, k: nat, k': nat)
    requires Extends(w, s, s') && k < |s.ops| && k' < |s'.ops| && s'.ops[k'] == s.ops[k] && OpOk(w, s, k)
    ensures OpOk(w, s', k')
  {
    var o := s.ops[k];
    match o.status
    case Reading(v, answers) =>
      forall p | p in answers
        ensures answers[p].ts >= 0 && AnswerOk(w, s', p, v, answers[p].ts, o.start)
      {
        AnswerStable(w, s, s', p, v, answers[p].ts, o.start);
      }
    case Writing(v, acks) =>
      forall p | p in acks
        ensures AnswerOk(w, s', p, v, o.choice.reg.ts, o.start)
      {
        AnswerStable(w, s, s', p, v, o.choice.reg.ts, o.start);
      }
    case Done(v, end, voters) =>
      forall p | p in voters
        ensures Attests(w, s', p, v, o.choice.reg.ts)
      {
        AttestsStable(w, s, s', p, v, o.choice.reg.ts);
      }
      if v > 0 { InstalledBeforeStable(w, s, s', v, end); }
    case Failed =>
  }

  // ----- the operation the step touches -----

  predicate Touches(e: Event, k: nat) {
    (e.ServeRead? || e.FinishRead? || e.ServeWrite? || e.FinishWrite? || e.ChangeView? || e.Fail?) && e.op == k
  }

  lemma Untouched(w: seq<Installed>, s: State, e: Event, k: nat)
    requires Enabled(w, s, e) && k < |s.ops| && !Touches(e, k)
    ensures k < |NextOps(w, s, e)| && NextOps(w, s, e)[k] == s.ops[k]
  {
  }

  lemma ServeReadOk(w: seq<Installed>, s: State, e: Event)
    requires Grounded(w, s) && e.ServeRead? && Enabled(w, s, e) && OpOk(w, s, e.op)
    requires Extends(w, s, Next(w, s, e))
    ensures OpOk(w, Next(w, s, e), e.op)
  {
    var s' := Next(w, s, e);
    var o, o' := s.ops[e.op], s'.ops[e.op];
    forall p | p in o'.status.answers
      ensures o'.status.answers[p].ts >= 0
      ensures AnswerOk(w, s', p, o.status.view, o'.status.answers[p].ts, o.start)
    {
      if p == e.p {
        assert ServerOk(w, s, p);
      } else {
        assert p in o.status.answers;
        AnswerStable(w, s, s', p, o.status.view, o.status.answers[p].ts, o.start);
      }
    }
  }

  lemma ServeWriteOk(w: seq<Installed>, s: State, e: Event)
    requires Grounded(w, s) && e.ServeWrite? && Enabled(w, s, e) && OpOk(w, s, e.op)
    requires Extends(w, s, Next(w, s, e))
    ensures OpOk(w, Next(w, s, e), e.op)
  {
    var s' := Next(w, s, e);
    var o, o' := s.ops[e.op], s'.ops[e.op];
    if o' == o {
      OpStable(w, s, s', e.op, e.op);
    } else {
      forall p | p in o'.status.acks
        ensures AnswerOk(w, s', p, o.status.view, o.choice.reg.ts, o.start)
      {
        if p != e.p { AnswerStable(w, s, s', p, o.status.view, o.choice.reg.ts, o.start); }
      }
    }
  }

  /** A quorum that attests t in view v makes the operation's Done record sound. */
  lemma DoneOk(w: seq<Installed>, s: State, s': State, v: nat, t: int, voters: set<Process>)
    requires Grounded(w, s) && Extends(w, s, s') && v < |w|
    requires IsQuorum(voters, w[v].members) && forall p | p in voters :: Attests(w, s, p, v, t)
    ensures forall p | p in voters :: Attests(w, s', p, v, t)
    ensures v > 0 ==> InstalledBefore(s', v, s.clock)
  {
    forall p | p in voters
      ensures Attests(w, s', p, v, t)
    {
      AttestsStable(w, s, s', p, v, t);
    }
    if v > 0 {
      var p := QuorumNonEmpty(w[v].members, voters);
      assert Attests(w, s, p, v, t);
      WasInHasOrigin(w, s, p, v);
      InstalledBeforeStable(w, s, s', v, s.clock);
    }
  }

  lemma FinishWriteOk(w: seq<Installed>, s: State, e: Event)
    requires Grounded(w, s) && e.FinishWrite? && Enabled(w, s, e) && OpOk(w, s, e.op)
    requires Extends(w, s, Next(w, s, e))
    ensures OpOk(w, Next(w, s, e), e.op)
  {
    var o := s.ops[e.op];
    forall p | p in o.status.acks
      ensures Attests(w, s, p, o.status.view, o.choice.reg.ts) && p in w[o.status.view].members
    {
      assert AnswerOk(w, s, p, o.status.view, o.choice.reg.ts, o.start);
    }
    DoneOk(w, s, Next(w, s, e), o.status.view, o.choice.reg.ts, o.status.acks);
  }

  /** The answers a first phase ends with come from a quorum, and the result is at least each. */
  lemma ReadQuorumOk(w: seq<Installed>, s: State, e: Event)
    requires Grounded(w, s) && e.FinishRead? && Enabled(w, s, e) && OpOk(w, s, e.op)
    ensures var st := s.ops[e.op].status;
            var final := Newest(Answered(e.order, st.answers), INITIAL);
            && IsQuorum(AsSet(e.order), w[st.view].members)
            && forall p | p in e.order ::
                 && AnswerOk(w, s, p, st.view, st.answers[p].ts, s.ops[e.op].start)
                 && st.answers[p] in Answered(e.order, st.answers)
                 && final.ts >= st.answers[p].ts
  {
    DistinctCardinality(e.order);
    var st := s.ops[e.op].status;
    var regs := Answered(e.order, st.answers);
    forall p | p in e.order
      ensures AnswerOk(w, s, p, st.view, st.answers[p].ts, s.ops[e.op].start)
      ensures st.answers[p] in regs && p in w[st.view].members
    {
      var i :| 0 <= i < |e.order| && e.order[i] == p;
      assert regs[i] == st.answers[p];
    }
  }

  lemma FinishReadOk(w: seq<Installed>, s: State, e: Event)
    requires Grounded(w, s) && e.FinishRead? && Enabled(w, s, e) && OpOk(w, s, e.op)
    requires Extends(w, s, Next(w, s, e))
    ensures OpOk(w, Next(w, s, e), e.op)
  {
    ReadQuorumOk(w, s, e);
    if Next(w, s, e).ops[e.op].status.Done? { ReadersAttest(w, s, e); }
  }

  /** The readers of a one-phase Read all hold what it returns. */
  lemma ReadersAttest(w: seq<Installed>, s: State, e: Event)
    requires Grounded(w, s) && e.FinishRead? && Enabled(w, s, e) && OpOk(w, s, e.op)
    requires Extends(w, s, Next(w, s, e)) && Next(w, s, e).ops[e.op].status.Done?
    ensures var s' := Next(w, s, e);
            var v, t := s.ops[e.op].status.view, s'.ops[e.op].choice.reg.ts;
            && (forall p | p in AsSet(e.order) :: Attests(w, s', p, v, t))
            && (v > 0 ==> InstalledBefore(s', v, s.clock))
  {
    ReadQuorumOk(w, s, e);
    var o, o' := s.ops[e.op], Next(w, s, e).ops[e.op];
    var regs := Answered(e.order, o.status.answers);
    forall p | p in AsSet(e.order)
      ensures Attests(w, s, p, o.status.view, o'.choice.reg.ts)
    {
      assert o.status.answers[p] in regs;
      assert AnswerOk(w, s, p, o.status.view, o.status.answers[p].ts, o.start);
    }
    DoneOk(w, s, Next(w, s, e), o.status.view, o'.choice.reg.ts, AsSet(e.order));
  }

  lemma TouchedOk(w: seq<Installed>, s: State, e: Event, k: nat)
    requires Grounded(w, s) && Enabled(w, s, e) && k < |s.ops| && Touches(e, k) && OpOk(w, s, k)
    requires Extends(w, s, Next(w, s, e))
    ensures OpOk(w, Next(w, s, e), k)
  {
    match e
    case ServeRead(_, _) => ServeReadOk(w, s, e);
    case FinishRead(_, _) => FinishReadOk(w, s, e);
    case ServeWrite(_, _, _) => ServeWriteOk(w, s, e);
    case FinishWrite(_) => FinishWriteOk(w, s, e);
    case ChangeView(_, _) =>
    case Fail(_) =>
  }

  lemma OpsKept(w: seq<Installed>, s: State, e: Event)
    requires Inv(w, s) && Enabled(w, s, e) && Extends(w, s, Next(w, s, e))
    ensures var s' := Next(w, s, e); forall k: nat | k < |s'.ops| :: OpOk(w, s', k)
  {
    var s' := Next(w, s, e);
    forall k: nat | k < |s'.ops|
      ensures OpOk(w, s', k)
    {
      if k < |s.ops| {
        assert OpOk(w, s, k);
        if Touches(e, k) {
          TouchedOk(w, s, e, k);
        } else {
          Untouched(w, s, e, k);
          OpStable(w, s, s', k, k);
        }
      }
    }
  }

  // ----- the heart: what a first phase finds -----

  /** A server that answers in the view of a returned operation, as one of its voters, or in any
      later view, answers with a timestamp at least as high. */
  lemma AnswersAreFresh(w: seq<Installed>, s: State, e: Event, a: nat)
    requires Inv(w, s) && e.ServeRead? && Enabled(w, s, e) && a < |s.ops|
    requires s.ops[a].status.Done?
    requires var v := s.ops[e.op].status.view;
             v > s.ops[a].status.view || (v == s.ops[a].status.view && e.p in s.ops[a].status.voters)
    ensures s.ops[a].choice.Chosen? && s.servers[e.p].reg.ts >= s.ops[a].choice.reg.ts
  {
    assert OpOk(w, s, a);
    var o := s.ops[a];
    var v, t := s.ops[e.op].status.view, o.choice.reg.ts;
    if v > o.status.view {
      LaterViewsAttest(w, s, o.status.view, t, o.status.voters, v, e.p);
    } else {
      assert Attests(w, s, e.p, v, t);
    }
  }

  /** A first phase cannot end in a view older than that of an operation that returned before
      it began: a quorum of the older view had stopped answering. */
  lemma NoQuorumInOlderView(w: seq<Installed>, s: State, v: nat, T: nat, start: nat, q: set<Process>)
    requires Grounded(w, s) && InstalledBefore(s, v + 1, T) && T <= start && v < |w|
    requires forall p | p in q :: p in w[v].members && ((p, v) in s.sent ==> start <= s.sent[(p, v)].at)
    ensures |q| < QuorumSize(|w[v].members|)
  {
    var p :| (p, v + 1) in s.origin && s.origin[(p, v + 1)].at < T;
    assert OriginOk(w, s, (p, v + 1));
    if |q| >= QuorumSize(|w[v].members|) {
      var r := QuorumsIntersect(w[v].members, q, s.origin[(p, v + 1)].from);
      SourceWasIn(w, s, p, v + 1, r);
      assert false;
    }
  }

  /** The result of a first phase is at least the timestamp of every operation that returned
      before it began. */
  lemma FirstPhaseFindsReturned(w: seq<Installed>, s: State, e: Event, a: nat)
    requires Inv(w, s) && e.FinishRead? && Enabled(w, s, e) && a < |s.ops| && Before(s.ops[a], s.ops[e.op])
    ensures s.ops[a].choice.Chosen?
    ensures Newest(Answered(e.order, s.ops[e.op].status.answers), INITIAL).ts >= s.ops[a].choice.reg.ts
  {
    assert OpOk(w, s, a) && OpOk(w, s, e.op) && FreshOk(s.ops[a], s.ops[e.op]);
    ReadQuorumOk(w, s, e);
    var x, y, q := s.ops[a], s.ops[e.op], AsSet(e.order);
    var v, b := y.status.view, x.status.view;
    if v < b {
      EarlierViewsInstalled(w, s, v + 1, b, x.status.end);
      forall p | p in q
        ensures p in w[v].members && ((p, v) in s.sent ==> y.start <= s.sent[(p, v)].at)
      {
        assert AnswerOk(w, s, p, v, y.status.answers[p].ts, y.start);
      }
      NoQuorumInOlderView(w, s, v, x.status.end, y.start, q);
      assert false;
    } else if v == b {
      var p := QuorumsIntersect(w[v].members, x.status.voters, q);
      assert y.status.answers[p].ts >= x.choice.reg.ts;
    } else {
      var p := QuorumNonEmpty(w[v].members, q);
      assert y.status.answers[p].ts >= x.choice.reg.ts;
    }
  }

  // ----- preservation of the two order invariants -----

  /** An operation keeps its start, its kind, its choice once made, and its return. */
  lemma OpHistory(w: seq<Installed>, s: State, e: Event, k: nat)
    requires Inv(w, s) && Enabled(w, s, e) && k < |s.ops|
    ensures var s' := Next(w, s, e);
            && k < |s'.ops| && s'.ops[k].start == s.ops[k].start && s'.ops[k].kind == s.ops[k].kind
            && s'.ops[k].client == s.ops[k].client
            && (s.ops[k].choice.Chosen? ==> s'.ops[k].choice == s.ops[k].choice)
            && (s.ops[k].status.Done? ==> s'.ops[k] == s.ops[k])
            && (s'.ops[k].status.Done? && !s.ops[k].status.Done? ==> s'.ops[k].status.end == s.clock)
            && (s'.ops[k].choice.Chosen? && !s.ops[k].choice.Chosen? ==> e.FinishRead? && e.op == k)
  {
    assert OpOk(w, s, k);
    if !Touches(e, k) { Untouched(w, s, e, k); }
  }

  lemma NewPairsAreVacuous(w: seq<Installed>, s: State, e: Event, a: nat, b: nat)
    requires Inv(w, s) && Enabled(w, s, e)
    requires a < |Next(w, s, e).ops| && b < |Next(w, s, e).ops|
    requires Before(Next(w, s, e).ops[a], Next(w, s, e).ops[b])
    ensures a < |s.ops| && s.ops[a].status.Done? && Next(w, s, e).ops[a] == s.ops[a]
    ensures b < |s.ops| ==> Before(s.ops[a], s.ops[b])
  {
    if a < |s.ops| { OpHistory(w, s, e, a); }
    if b < |s.ops| {
      OpHistory(w, s, e, b);
      assert OpOk(w, s, b);
    }
  }

  lemma FreshKept(w: seq<Installed>, s: State, e: Event, a: nat, b: nat)
    requires Inv(w, s) && Enabled(w, s, e)
    requires a < |Next(w, s, e).ops| && b < |Next(w, s, e).ops|
    ensures FreshOk(Next(w, s, e).ops[a], Next(w, s, e).ops[b])
  {
    var s' := Next(w, s, e);
    if Before(s'.ops[a], s'.ops[b]) && s'.ops[b].status.Reading? {
      NewPairsAreVacuous(w, s, e, a, b);
      if b < |s.ops| {
        assert FreshOk(s.ops[a], s.ops[b]) && OpOk(w, s, b) && OpOk(w, s, a);
        if Touches(e, b) {
          forall p | p in s'.ops[b].status.answers
            ensures (s'.ops[b].status.view == s.ops[a].status.view && p in s.ops[a].status.voters)
                    || s'.ops[b].status.view > s.ops[a].status.view
                    ==> s'.ops[b].status.answers[p].ts >= s.ops[a].choice.reg.ts
          {
            if e.ServeRead? && p == e.p
               && (s'.ops[b].status.view > s.ops[a].status.view || p in s.ops[a].status.voters)
               && s'.ops[b].status.view >= s.ops[a].status.view {
              AnswersAreFresh(w, s, e, a);
            } else if e.ServeRead? && p != e.p {
              assert s.ops[b].status.answers[p] == s'.ops[b].status.answers[p];
            }
          }
        } else {
          Untouched(w, s, e, b);
        }
      }
    }
  }

  lemma OrderKept(w: seq<Installed>, s: State, e: Event, a: nat, b: nat)
    requires Inv(w, s) && Enabled(w, s, e)
    requires a < |Next(w, s, e).ops| && b < |Next(w, s, e).ops|
    ensures OrderOk(Next(w, s, e).ops[a], Next(w, s, e).ops[b])
  {
    var s' := Next(w, s, e);
    if Before(s'.ops[a], s'.ops[b]) && s'.ops[b].choice.Chosen? {
      NewPairsAreVacuous(w, s, e, a, b);
      assert b < |s.ops|;
      OpHistory(w, s, e, b);
      assert OrderOk(s.ops[a], s.ops[b]);
      if !s.ops[b].choice.Chosen? { FirstPhaseFindsReturned(w, s, e, a); }
    }
  }

  lemma {:induction false} StepInv(w: seq<Installed>, s: State, e: Event)
    requires Inv(w, s) && CachesExact(w) && Enabled(w, s, e)
    ensures Inv(w, Next(w, s, e)) && Extends(w, s, Next(w, s, e))
  {
    StepGrounded(w, s, e);
    OpsKept(w, s, e);
    var s' := Next(w, s, e);
    forall a: nat, b: nat | a < |s'.ops| && b < |s'.ops|
      ensures FreshOk(s'.ops[a], s'.ops[b]) && OrderOk(s'.ops[a], s'.ops[b])
    {
      FreshKept(w, s, e, a, b);
      OrderKept(w, s, e, a, b);
    }
  }
}
