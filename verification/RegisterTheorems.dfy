/**
 The safety theorems of the register over whole runs: every chain of installed views, any
 number of clients and operations, any interleaving, loss or delay.
 */
module RegisterTheorems {
  import opened Views
  import opened RegisterSystem
  import opened RegisterInvariants
  import opened RegisterOrder

  lemma {:induction false} RunInv(w: seq<Installed>, tr: seq<State>, es: seq<Event>, i: nat)
    requires Run(w, tr, es) && i < |tr|
    ensures Inv(w, tr[i])
    ensures i < |es| ==> Extends(w, tr[i], tr[i + 1])
  {
    if i == 0 {
      InitGrounded(w, tr[0]);
    } else {
      RunInv(w, tr, es, i - 1);
      StepInv(w, tr[i - 1], es[i - 1]);
    }
    if i < |es| { StepInv(w, tr[i], es[i]); }
  }

  /** Operation a returned before operation b started: b's timestamp is at least a's, and
      strictly greater if b is a Write. */
  lemma TimestampsFollowRealTime(w: seq<Installed>, tr: seq<State>, es: seq<Event>, i: nat, a: nat, b: nat)
    requires Run(w, tr, es) && i < |tr| && a < |tr[i].ops| && b < |tr[i].ops|
    requires tr[i].ops[a].status.Done? && tr[i].ops[b].status.Done? && Before(tr[i].ops[a], tr[i].ops[b])
    ensures tr[i].ops[a].choice.Chosen? && tr[i].ops[b].choice.Chosen?
    ensures tr[i].ops[a].choice.reg.ts <= tr[i].ops[b].choice.reg.ts
    ensures tr[i].ops[b].kind.Write? ==> tr[i].ops[a].choice.reg.ts < tr[i].ops[b].choice.reg.ts
  {
    RunInv(w, tr, es, i);
    assert OpOk(w, tr[i], a) && OpOk(w, tr[i], b) && OrderOk(tr[i].ops[a], tr[i].ops[b]);
  }

  // ----- no completed operation is lost by an install -----

  /** Whatever returned in view b is known to every server serving a later view, whether it
      installed that view before or after the operation returned. */
  lemma LaterViewsKnowReturned(w: seq<Installed>, tr: seq<State>, es: seq<Event>, i: nat, a: nat, p: Process)
    requires Run(w, tr, es) && i < |tr| && a < |tr[i].ops| && tr[i].ops[a].status.Done?
    requires p in tr[i].servers && tr[i].servers[p].cur < |w| && p in w[tr[i].servers[p].cur].members
    requires tr[i].ops[a].status.view < tr[i].servers[p].cur
    ensures tr[i].ops[a].choice.Chosen? && tr[i].servers[p].reg.ts >= tr[i].ops[a].choice.reg.ts
  {
    RunInv(w, tr, es, i);
    var s, o := tr[i], tr[i].ops[a];
    assert OpOk(w, s, a);
    LaterViewsAttest(w, s, o.status.view, o.choice.reg.ts, o.status.voters, s.servers[p].cur, p);
  }

  /** Right after syncState, the register of the installing server is at least as new as every
      operation that returned in the view it comes from or in an earlier one. */
  lemma InstallLosesNothing(w: seq<Installed>, tr: seq<State>, es: seq<Event>, i: nat, a: nat)
    requires Run(w, tr, es) && i < |es| && es[i].Install?
    requires a < |tr[i].ops| && tr[i].ops[a].status.Done? && tr[i].ops[a].status.view <= es[i].step
    ensures tr[i].ops[a].choice.Chosen?
    ensures tr[i + 1].servers[es[i].p].reg.ts >= tr[i].ops[a].choice.reg.ts
  {
    RunInv(w, tr, es, i);
    OpHistory(w, tr[i], es[i], a);
    LaterViewsKnowReturned(w, tr, es, i + 1, a, es[i].p);
  }

  /** Acknowledging a write leaves the server vouching for its timestamp. */
  lemma ServedWriteAttests(w: seq<Installed>, tr: seq<State>, es: seq<Event>, j: nat)
    requires Run(w, tr, es) && j < |es| && es[j].ServeWrite?
    ensures es[j].op < |tr[j + 1].ops| && tr[j + 1].ops[es[j].op].choice.Chosen?
    ensures Attests(w, tr[j + 1], es[j].p, es[j].view, tr[j + 1].ops[es[j].op].choice.reg.ts)
  {
    RunInv(w, tr, es, j);
    OpHistory(w, tr[j], es[j], es[j].op);
  }

  lemma AttestsNext(w: seq<Installed>, tr: seq<State>, es: seq<Event>, i: nat, p: Process, b: nat, t: int)
    requires Run(w, tr, es) && i < |es| && Attests(w, tr[i], p, b, t)
    ensures Attests(w, tr[i + 1], p, b, t)
  {
    RunInv(w, tr, es, i);
    AttestsStable(w, tr[i], tr[i + 1], p, b, t);
  }

  lemma OpNext(w: seq<Installed>, tr: seq<State>, es: seq<Event>, i: nat, a: nat)
    requires Run(w, tr, es) && i < |es| && a < |tr[i].ops|
    ensures a < |tr[i + 1].ops| && tr[i + 1].ops[a].start == tr[i].ops[a].start
    ensures tr[i].ops[a].choice.Chosen? ==> tr[i + 1].ops[a].choice == tr[i].ops[a].choice
  {
    RunInv(w, tr, es, i);
    OpHistory(w, tr[i], es[i], a);
  }

  lemma {:induction false} AttestsStays(w: seq<Installed>, tr: seq<State>, es: seq<Event>, j: nat, i: nat,
                                        p: Process, b: nat, t: int)
    requires Run(w, tr, es) && j <= i < |tr| && Attests(w, tr[j], p, b, t)
    ensures Attests(w, tr[i], p, b, t)
    decreases i
  {
    if j < i {
      AttestsStays(w, tr, es, j, i - 1, p, b, t);
      AttestsNext(w, tr, es, i - 1, p, b, t);
    }
  }

  lemma {:induction false} ChoiceStays(w: seq<Installed>, tr: seq<State>, es: seq<Event>, j: nat, i: nat, a: nat)
    requires Run(w, tr, es) && j <= i < |tr| && a < |tr[j].ops| && tr[j].ops[a].choice.Chosen?
    ensures a < |tr[i].ops| && tr[i].ops[a].choice == tr[j].ops[a].choice
    decreases i
  {
    if j < i {
      ChoiceStays(w, tr, es, j, i - 1, a);
      OpNext(w, tr, es, i - 1, a);
    }
  }

  ghost predicate AckedBefore(es: seq<Event>, i: nat, a: nat, b: nat, p: Process) {
    exists j :: 0 <= j < i && j < |es| && es[j] == ServeWrite(a, b, p)
  }

  /** The same for a timestamp that a quorum has acknowledged in view b, whatever became of the
      operation: it may still run, have failed, or have moved to another view. */
  lemma InstallKeepsAcknowledged(w: seq<Installed>, tr: seq<State>, es: seq<Event>, i: nat,
                                 a: nat, b: nat, q: set<Process>)
    requires Run(w, tr, es) && i < |es| && es[i].Install? && b <= es[i].step && b < |w|
    requires IsQuorum(q, w[b].members) && forall p | p in q :: AckedBefore(es, i, a, b, p)
    ensures a < |tr[i].ops| && tr[i].ops[a].choice.Chosen?
    ensures tr[i + 1].servers[es[i].p].reg.ts >= tr[i].ops[a].choice.reg.ts
  {
    var x := QuorumNonEmpty(w[b].members, q);
    AckedAttests(w, tr, es, i, a, b, x);
    var t := tr[i].ops[a].choice.reg.ts;
    forall p | p in q ensures Attests(w, tr[i + 1], p, b, t) { AckedAttests(w, tr, es, i, a, b, p); }
    RunInv(w, tr, es, i + 1);
    LaterViewsAttest(w, tr[i + 1], b, t, q, es[i].step + 1, es[i].p);
  }

  lemma AckedAttests(w: seq<Installed>, tr: seq<State>, es: seq<Event>, i: nat, a: nat, b: nat, p: Process)
    requires Run(w, tr, es) && i < |es| && AckedBefore(es, i, a, b, p)
    ensures a < |tr[i].ops| && tr[i].ops[a].choice.Chosen?
    ensures Attests(w, tr[i + 1], p, b, tr[i].ops[a].choice.reg.ts)
  {
    var j :| 0 <= j < i && es[j] == ServeWrite(a, b, p);
    ServedWriteAttests(w, tr, es, j);
    ChoiceStays(w, tr, es, j + 1, i, a);
    AttestsStays(w, tr, es, j + 1, i + 1, p, b, tr[i].ops[a].choice.reg.ts);
  }

  // ----- an old view goes silent -----

  lemma StartNext(w: seq<Installed>, tr: seq<State>, es: seq<Event>, i: nat, k: nat)
    requires Run(w, tr, es) && i < |es| && |tr[i].ops| <= k < |tr[i + 1].ops|
    ensures tr[i + 1].ops[k].start == tr[i].clock
  {
    assert tr[i + 1] == Next(w, tr[i], es[i]);
  }

  lemma {:induction false} StartedLater(w: seq<Installed>, tr: seq<State>, es: seq<Event>, i: nat, j: nat, k: nat)
    requires Run(w, tr, es) && i <= j < |tr| && |tr[i].ops| <= k < |tr[j].ops|
    ensures tr[j].ops[k].start >= tr[i].clock
    decreases j
  {
    if i < j {
      if k < |tr[j - 1].ops| {
        StartedLater(w, tr, es, i, j - 1, k);
        OpNext(w, tr, es, j - 1, k);
      } else {
        StartNext(w, tr, es, j - 1, k);
        ClockGrows(w, tr, es, i, j - 1);
      }
    }
  }

  lemma {:induction false} ClockGrows(w: seq<Installed>, tr: seq<State>, es: seq<Event>, i: nat, j: nat)
    requires Run(w, tr, es) && i <= j < |tr|
    ensures tr[i].clock <= tr[j].clock
    decreases j
  {
    if i < j { ClockGrows(w, tr, es, i, j - 1); }
  }

  lemma InstallStays(w: seq<Installed>, tr: seq<State>, es: seq<Event>, i: nat, k: (Process, nat))
    requires Run(w, tr, es) && i < |es| && k in tr[i].origin
    ensures k in tr[i + 1].origin && tr[i + 1].origin[k] == tr[i].origin[k]
  {
    RunInv(w, tr, es, i);
    assert OriginStep(tr[i], tr[i + 1], k);
  }

  lemma {:induction false} InstalledStays(w: seq<Installed>, tr: seq<State>, es: seq<Event>, i: nat, j: nat,
                                          k: (Process, nat))
    requires Run(w, tr, es) && i <= j < |tr| && k in tr[i].origin
    ensures k in tr[j].origin && tr[j].origin[k] == tr[i].origin[k]
    decreases j
  {
    if i < j {
      InstalledStays(w, tr, es, i, j - 1, k);
      InstallStays(w, tr, es, j - 1, k);
    }
  }

  /** Once any server has installed w[v + 1], an operation that starts afterwards never gets a
      quorum of answers or of acknowledgements in w[v]: neither phase can end there. */
  lemma OldViewIsSilent(
      w: seq<Installed>, tr: seq<State>, es: seq<Event>, i: nat, p: Process, v: nat, j: nat, k: nat)
    requires Run(w, tr, es) && i <= j < |tr|
    requires (p, v + 1) in tr[i].origin
    requires |tr[i].ops| <= k < |tr[j].ops| && InView(tr[j].ops[k], v) && v < |w|
    ensures tr[j].ops[k].status.Reading? ==> |tr[j].ops[k].status.answers| < QuorumSize(|w[v].members|)
    ensures tr[j].ops[k].status.Writing? ==> |tr[j].ops[k].status.acks| < QuorumSize(|w[v].members|)
  {
    RunInv(w, tr, es, i);
    RunInv(w, tr, es, j);
    StartedLater(w, tr, es, i, j, k);
    InstalledStays(w, tr, es, i, j, (p, v + 1));
    assert OriginOk(w, tr[i], (p, v + 1)) && OpOk(w, tr[j], k);
    assert InstalledBefore(tr[j], v + 1, tr[i].clock);
    var o := tr[j].ops[k];
    var q := if o.status.Reading? then o.status.answers.Keys else o.status.acks;
    forall x | x in q
      ensures x in w[v].members && ((x, v) in tr[j].sent ==> o.start <= tr[j].sent[(x, v)].at)
    {
      if o.status.Reading? { assert AnswerOk(w, tr[j], x, v, o.status.answers[x].ts, o.start); }
    }
    NoQuorumInOlderView(w, tr[j], v, tr[i].clock, o.start, q);
    assert o.status.Reading? ==> |o.status.answers| == |q|;
  }

  // ----- pending updates are conserved -----

  ghost predicate AckKept(w: seq<Installed>, s: State, x: (Process, nat, Update)) {
    x.1 < |w| && (x.0 in w[x.1].members ==> Keeps(w, s, x.0, x.1, x.2))
  }

  lemma {:induction false} AcksKept(w: seq<Installed>, tr: seq<State>, es: seq<Event>, i: nat,
                                    x: (Process, nat, Update))
    requires Run(w, tr, es) && i < |tr| && x in tr[i].acked
    ensures AckKept(w, tr[i], x)
  {
    if i > 0 {
      RunInv(w, tr, es, i - 1);
      var s, s' := tr[i - 1], tr[i];
      if x in s.acked {
        AcksKept(w, tr, es, i - 1, x);
        if x.0 in w[x.1].members { KeepsStable(w, s, s', x.0, x.1, x.2); }
      }
    }
  }

  /** An update acknowledged by a quorum of w[b] is, at every server serving a later view, an
      entry of that view or still pending. */
  lemma UpdatesAreConserved(
      w: seq<Installed>, tr: seq<State>, es: seq<Event>, i: nat, b: nat, u: Update, quorum: set<Process>, p: Process)
    requires Run(w, tr, es) && i < |tr| && b < |w|
    requires IsQuorum(quorum, w[b].members) && forall q | q in quorum :: (q, b, u) in tr[i].acked
    requires p in tr[i].servers && b < tr[i].servers[p].cur < |w| && p in w[tr[i].servers[p].cur].members
    ensures u in w[tr[i].servers[p].cur].entries || u in tr[i].servers[p].recv
  {
    RunInv(w, tr, es, i);
    forall q | q in quorum
      ensures Keeps(w, tr[i], q, b, u)
    {
      AcksKept(w, tr, es, i, (q, b, u));
    }
    LaterViewsKeep(w, tr[i], b, u, quorum, tr[i].servers[p].cur, p);
  }
}
