/**
 Nothing the register system promises is kept by doing nothing. From every reachable state an
 operation can return in any view that a quorum serves and the client may still move to, and the
 next view can be installed whenever a quorum of the current one and a quorum of the next are up.
 Other servers may have crashed and any messages may be lost: no step here needs them.
 */
module RegisterProgress {
  import opened Views
  import opened RegisterSystem
  import opened RegisterRuns
  import opened RegisterInvariants
  import opened RegisterOrder
  import opened RegisterTheorems
  import opened Runs

  // ----- a second phase is on its way -----

  ghost predicate OnWire(s: State, k: nat)
    requires k < |s.ops|
  {
    s.ops[k].status.Writing? ==> s.ops[k].choice.Chosen? && (k, s.ops[k].status.view) in s.wire
  }

  lemma StepOnWire(w: seq<Installed>, s: State, e: Event, k: nat)
    requires Enabled(w, s, e) && k < |Next(w, s, e).ops| && (k < |s.ops| ==> OnWire(s, k))
    ensures OnWire(Next(w, s, e), k)
  {
  }

  /** In every run, the request of a second phase has been sent in the view its client is in. */
  lemma {:induction false} SecondPhaseIsSent(w: seq<Installed>, tr: seq<State>, es: seq<Event>, i: nat, k: nat)
    requires Run(w, tr, es) && i < |tr| && k < |tr[i].ops|
    ensures OnWire(tr[i], k)
  {
    if i > 0 {
      if k < |tr[i - 1].ops| { SecondPhaseIsSent(w, tr, es, i - 1, k); }
      StepOnWire(w, tr[i - 1], es[i - 1], k);
    }
  }

  // ----- operation k goes on, and nothing else happens -----

  ghost predicate AllServe(w: seq<Installed>, s: State, v: nat, ps: set<Process>) {
    forall p | p in ps :: Serves(w, s, p, v)
  }

  /** Between s and t only operation k has gone on, and servers may have taken its value. */
  ghost predicate OnlyOp(s: State, t: State, k: nat) {
    && |t.ops| == |s.ops| && t.sent == s.sent && s.wire <= t.wire
    && (forall j | 0 <= j < |s.ops| :: j != k ==> t.ops[j] == s.ops[j])
    && (k < |s.ops| ==> t.ops[k].client == s.ops[k].client && t.ops[k].kind == s.ops[k].kind
                        && t.ops[k].start == s.ops[k].start)
    && (forall p | p in s.servers :: p in t.servers && t.servers[p].cur == s.servers[p].cur)
  }

  ghost predicate Asked(s0: State, s: State, k: nat, v: nat, done: set<Process>)
    requires k < |s0.ops| && s0.ops[k].status.Reading?
  {
    && OnlyOp(s0, s, k) && s.ops[k].status.Reading? && s.ops[k].status.view == v
    && forall p :: p in s.ops[k].status.answers <==> p in s0.ops[k].status.answers || p in done
  }

  lemma AskTurn(w: seq<Installed>, s0: State, s: State, k: nat, v: nat, done: set<Process>, p: Process)
    returns (t: State)
    requires k < |s0.ops| && s0.ops[k].status.Reading? && Asked(s0, s, k, v, done) && Serves(w, s0, p, v)
    requires p !in s0.ops[k].status.answers && p !in done
    ensures Step(w)(s, ServeRead(k, p), t) && Asked(s0, t, k, v, done + {p})
  {
    t := Next(w, s, ServeRead(k, p));
  }

  lemma AskAll(w: seq<Installed>, s: State, k: nat, v: nat, ps: set<Process>) returns (t: State)
    requires k < |s.ops| && s.ops[k].status.Reading? && s.ops[k].status.view == v && AllServe(w, s, v, ps)
    ensures Reaches(Step(w), s, t) && OnlyOp(s, t, k) && t.ops[k].status.Reading? && t.ops[k].status.view == v
    ensures forall p | p in ps :: p in t.ops[k].status.answers
  {
    var missing := set p | p in ps && p !in s.ops[k].status.answers;
    var inv := (u: State, done: set<Process>) => Asked(s, u, k, v, done);
    forall u, done, p | inv(u, done) && done <= missing && p in missing && p !in done
      ensures Runs.Turn(Step(w), inv, u, done, p)
    {
      var x := AskTurn(w, s, u, k, v, done, p);
    }
    t := EachInTurn(Step(w), inv, s, missing, missing);
  }

  /** A first phase in a view that the quorum ps serves can end. */
  lemma FirstPhaseEnds(w: seq<Installed>, s: State, k: nat, v: nat, ps: set<Process>) returns (t: State)
    requires k < |s.ops| && s.ops[k].status.Reading? && s.ops[k].status.view == v && AllServe(w, s, v, ps) && v < |w|
    requires |ps| == QuorumSize(|w[v].members|)
    ensures Reaches(Step(w), s, t) && OnlyOp(s, t, k) && OnWire(t, k)
    ensures t.ops[k].status.Done? || t.ops[k].status.Writing?
    ensures t.ops[k].status.view == v
  {
    var u := AskAll(w, s, k, v, ps);
    var order := Enumerate(ps);
    forall p | p in order ensures p in u.ops[k].status.answers { assert p in AsSet(order); }
    t := Next(w, u, FinishRead(k, order));
    Go(Step(w), s, u, FinishRead(k, order), t);
  }

  ghost predicate Acked(s0: State, s: State, k: nat, v: nat, done: set<Process>)
    requires k < |s0.ops|
  {
    && OnlyOp(s0, s, k) && s.ops[k].status.Writing? && s.ops[k].status.view == v && OnWire(s, k)
    && done <= s.ops[k].status.acks
  }

  lemma AckTurn(w: seq<Installed>, s0: State, s: State, k: nat, v: nat, done: set<Process>, p: Process)
    returns (t: State)
    requires k < |s0.ops| && Acked(s0, s, k, v, done) && Serves(w, s0, p, v)
    ensures Step(w)(s, ServeWrite(k, v, p), t) && Acked(s0, t, k, v, done + {p})
  {
    t := Next(w, s, ServeWrite(k, v, p));
  }

  /** A second phase in a view that the quorum ps serves can end. */
  lemma SecondPhaseEnds(w: seq<Installed>, s: State, k: nat, v: nat, ps: set<Process>) returns (t: State)
    requires k < |s.ops| && s.ops[k].status.Writing? && s.ops[k].status.view == v && OnWire(s, k)
    requires AllServe(w, s, v, ps) && v < |w| && |ps| == QuorumSize(|w[v].members|)
    ensures Reaches(Step(w), s, t) && OnlyOp(s, t, k) && t.ops[k].status.Done? && t.ops[k].status.view == v
  {
    var inv := (u: State, done: set<Process>) => Acked(s, u, k, v, done);
    forall u, done, p | inv(u, done) && done <= ps && p in ps && p !in done
      ensures Runs.Turn(Step(w), inv, u, done, p)
    {
      var x := AckTurn(w, s, u, k, v, done, p);
    }
    var u := EachInTurn(Step(w), inv, s, ps, ps);
    SubsetCardinality(ps, u.ops[k].status.acks);
    t := Next(w, u, FinishWrite(k));
    Go(Step(w), s, u, FinishWrite(k), t);
  }

  lemma StillServe(w: seq<Installed>, s: State, t: State, k: nat, v: nat, ps: set<Process>)
    requires OnlyOp(s, t, k) && AllServe(w, s, v, ps)
    ensures AllServe(w, t, v, ps)
  {
  }

  lemma InViewCanReturn(w: seq<Installed>, s: State, k: nat, v: nat, ps: set<Process>) returns (t: State)
    requires k < |s.ops| && InView(s.ops[k], v) && OnWire(s, k)
    requires AllServe(w, s, v, ps) && v < |w| && |ps| == QuorumSize(|w[v].members|)
    ensures Reaches(Step(w), s, t) && OnlyOp(s, t, k) && t.ops[k].status.Done? && t.ops[k].status.view == v
  {
    if s.ops[k].status.Writing? {
      t := SecondPhaseEnds(w, s, k, v, ps);
    } else {
      t := FirstPhaseEnds(w, s, k, v, ps);
      if t.ops[k].status.Writing? {
        StillServe(w, s, t, k, v, ps);
        var u := SecondPhaseEnds(w, t, k, v, ps);
        Concat(Step(w), s, t, u);
        t := u;
      }
    }
  }

  lemma CanReturn(w: seq<Installed>, s: State, k: nat, v: nat, ps: set<Process>) returns (t: State)
    requires k < |s.ops| && Active(s.ops[k]) && OnWire(s, k) && s.ops[k].status.view <= v < |w|
    requires AllServe(w, s, v, ps) && |ps| == QuorumSize(|w[v].members|)
    ensures Reaches(Step(w), s, t) && OnlyOp(s, t, k) && t.ops[k].status.Done? && t.ops[k].status.view == v
  {
    if s.ops[k].status.view == v {
      t := InViewCanReturn(w, s, k, v, ps);
    } else {
      var e := ChangeView(k, v);
      var u := Next(w, s, e);
      Once(Step(w), s, e, u);
      StepOnWire(w, s, e, k);
      StillServe(w, s, u, k, v, ps);
      t := InViewCanReturn(w, u, k, v, ps);
      Concat(Step(w), s, u, t);
    }
  }

  /** An operation can return in any view from its own on that some quorum serves. */
  lemma OperationsCanReturn(w: seq<Installed>, tr: seq<State>, es: seq<Event>, i: nat, k: nat, v: nat, ps: set<Process>)
    returns (t: State)
    requires Run(w, tr, es) && i < |tr| && k < |tr[i].ops| && Active(tr[i].ops[k])
    requires tr[i].ops[k].status.view <= v < |w|
    requires AllServe(w, tr[i], v, ps) && |ps| == QuorumSize(|w[v].members|)
    ensures Reaches(Step(w), tr[i], t) && OnlyOp(tr[i], t, k) && t.ops[k].status.Done? && t.ops[k].status.view == v
  {
    SecondPhaseIsSent(w, tr, es, i, k);
    t := CanReturn(w, tr[i], k, v, ps);
  }

  /** A client whose operations have all returned can start another one, and it can return. */
  lemma NewOperationsCanReturn(w: seq<Installed>, tr: seq<State>, es: seq<Event>, i: nat,
                               client: nat, kind: Kind, b: nat, v: nat, ps: set<Process>)
    returns (t: State)
    requires Run(w, tr, es) && i < |tr| && b <= v < |w|
    requires forall k | 0 <= k < |tr[i].ops| && tr[i].ops[k].client == client :: tr[i].ops[k].status.Done?
    requires AllServe(w, tr[i], v, ps) && |ps| == QuorumSize(|w[v].members|)
    ensures Reaches(Step(w), tr[i], t) && |t.ops| == |tr[i].ops| + 1
    ensures var o := t.ops[|tr[i].ops|];
            o.client == client && o.kind == kind && o.start == tr[i].clock && o.status.Done? && o.status.view == v
  {
    var s, e := tr[i], Begin(client, kind, b);
    var u := Next(w, s, e);
    Once(Step(w), s, e, u);
    assert AllServe(w, u, v, ps) by { forall p | p in ps ensures Serves(w, u, p, v) { assert Serves(w, s, p, v); } }
    t := CanReturn(w, u, |s.ops|, v, ps);
    Concat(Step(w), s, u, t);
  }

  // ----- the next view -----

  /** Between s0 and s the servers `done` have sent their state in view v. */
  ghost predicate HaveSent(s0: State, s: State, v: nat, done: set<Process>) {
    && s.ops == s0.ops && s.wire == s0.wire && s.servers == s0.servers
    && (forall p | p in done :: (p, v) in s.sent)
    && (forall x | x in s0.sent :: x in s.sent)
    && (forall x | x in s.sent :: x in s0.sent || (x.1 == v && x.0 in done))
  }

  lemma SendTurn(w: seq<Installed>, s0: State, s: State, v: nat, done: set<Process>, p: Process) returns (t: State)
    requires HaveSent(s0, s, v, done) && v + 1 < |w| && p in w[v].members && p in s0.servers && s0.servers[p].cur == v
    requires p !in done && (p, v) !in s0.sent
    ensures Step(w)(s, SendState(p), t) && HaveSent(s0, t, v, done + {p})
  {
    t := Next(w, s, SendState(p));
  }

  /** The servers ps of view v can leave it. */
  lemma SendAll(w: seq<Installed>, s: State, v: nat, ps: set<Process>) returns (t: State)
    requires v + 1 < |w| && ps <= w[v].members && forall p | p in ps :: p in s.servers && s.servers[p].cur == v
    ensures Reaches(Step(w), s, t) && HaveSent(s, t, v, ps)
  {
    var missing := set p | p in ps && (p, v) !in s.sent;
    var inv := (u: State, done: set<Process>) => HaveSent(s, u, v, done);
    forall u, done, p | inv(u, done) && done <= missing && p in missing && p !in done
      ensures Runs.Turn(Step(w), inv, u, done, p)
    {
      var x := SendTurn(w, s, u, v, done, p);
    }
    t := EachInTurn(Step(w), inv, s, missing, missing);
  }

  /** Between s0 and s the servers `done` have installed view v. */
  ghost predicate HaveInstalled(s0: State, s: State, v: nat, done: set<Process>) {
    && s.ops == s0.ops && s.wire == s0.wire && s.sent == s0.sent
    && (forall p | p in s0.servers :: p in s.servers)
    && (forall p | p in s.servers ::
          p in s0.servers && if p in done then s.servers[p].cur == v else s.servers[p] == s0.servers[p])
  }

  /** Server p is where the install of view v + 1 finds it. */
  ghost predicate MayInstall(w: seq<Installed>, s: State, v: nat, p: Process) {
    && v + 1 < |w| && p in w[v + 1].members && p in s.servers
    && (if p in w[v].members then s.servers[p].cur == v else s.servers[p].cur <= v)
  }

  ghost predicate LeftBehind(w: seq<Installed>, s: State, v: nat, order: seq<Process>) {
    v < |w| && Distinct(order) && AllSent(order, v, s.sent) && |order| == QuorumSize(|w[v].members|)
  }

  lemma InstallTurn(w: seq<Installed>, s0: State, s: State, v: nat, order: seq<Process>, done: set<Process>, p: Process)
    returns (t: State)
    requires HaveInstalled(s0, s, v + 1, done) && LeftBehind(w, s0, v, order) && MayInstall(w, s0, v, p) && p !in done
    requires p in w[v].members ==> (p, v) in s0.sent
    ensures Step(w)(s, Install(p, v, order), t) && HaveInstalled(s0, t, v + 1, done + {p})
  {
    t := Next(w, s, Install(p, v, order));
  }

  lemma InstallAll(w: seq<Installed>, s: State, v: nat, order: seq<Process>, qs: set<Process>) returns (t: State)
    requires LeftBehind(w, s, v, order)
    requires forall p | p in qs :: MayInstall(w, s, v, p) && (p in w[v].members ==> (p, v) in s.sent)
    ensures Reaches(Step(w), s, t) && HaveInstalled(s, t, v + 1, qs)
  {
    var inv := (u: State, done: set<Process>) => HaveInstalled(s, u, v + 1, done);
    forall u, done, p | inv(u, done) && done <= qs && p in qs && p !in done
      ensures Runs.Turn(Step(w), inv, u, done, p)
    {
      var x := InstallTurn(w, s, u, v, order, done, p);
    }
    t := EachInTurn(Step(w), inv, s, qs, qs);
  }

  /** If a quorum ps of view v is there, the processes qs of the next view can install it and serve it. */
  lemma NextViewCanBeInstalled(w: seq<Installed>, tr: seq<State>, es: seq<Event>, i: nat, v: nat,
                               ps: set<Process>, qs: set<Process>)
    returns (t: State)
    requires Run(w, tr, es) && i < |tr| && v + 1 < |w|
    requires ps <= w[v].members && |ps| == QuorumSize(|w[v].members|)
    requires forall p | p in ps :: p in tr[i].servers && tr[i].servers[p].cur == v
    requires forall p | p in qs :: MayInstall(w, tr[i], v, p)
    ensures Reaches(Step(w), tr[i], t) && t.ops == tr[i].ops && t.wire == tr[i].wire
    ensures AllServe(w, t, v + 1, qs)
  {
    var s := tr[i];
    var leaving := ps + set p | p in qs && p in w[v].members;
    var u := SendAll(w, s, v, leaving);
    var order := Enumerate(ps);
    forall p | p in order ensures (p, v) in u.sent { assert p in AsSet(order); }
    forall p | p in qs ensures MayInstall(w, u, v, p) { assert MayInstall(w, s, v, p); }
    t := InstallAll(w, u, v, order, qs);
    Concat(Step(w), s, u, t);
    RunInv(w, tr, es, i);
    forall p | p in qs ensures Serves(w, t, p, v + 1) {
      assert MayInstall(w, s, v, p);
      assert (p, v + 1) in s.sent ==> SentOk(w, s, (p, v + 1));
    }
  }

  /** So an operation that a reconfiguration interrupts can return in the new view. */
  lemma InterruptedCanReturn(w: seq<Installed>, tr: seq<State>, es: seq<Event>, i: nat, v: nat,
                             ps: set<Process>, qs: set<Process>, k: nat)
    returns (t: State)
    requires Run(w, tr, es) && i < |tr| && v + 1 < |w|
    requires ps <= w[v].members && |ps| == QuorumSize(|w[v].members|)
    requires forall p | p in ps :: p in tr[i].servers && tr[i].servers[p].cur == v
    requires |qs| == QuorumSize(|w[v + 1].members|) && forall p | p in qs :: MayInstall(w, tr[i], v, p)
    requires k < |tr[i].ops| && Active(tr[i].ops[k]) && tr[i].ops[k].status.view <= v + 1
    ensures Reaches(Step(w), tr[i], t) && AllServe(w, t, v + 1, qs)
    ensures |t.ops| == |tr[i].ops| && t.ops[k].kind == tr[i].ops[k].kind
    ensures t.ops[k].status.Done? && t.ops[k].status.view == v + 1
  {
    var u := NextViewCanBeInstalled(w, tr, es, i, v, ps, qs);
    SecondPhaseIsSent(w, tr, es, i, k);
    t := CanReturn(w, u, k, v + 1, qs);
    StillServe(w, u, t, k, v + 1, qs);
    Concat(Step(w), tr[i], u, t);
  }
}
