/**
 What every step of the register system keeps about servers, state messages and installs.

 Each invariant is a quantifier over a named predicate that is also its trigger: a proof
 mentions the instances it needs.
 */
module RegisterInvariants {
  import opened Views
  import opened RegisterSystem

  /** Server p vouches for timestamp t in view b: it left b with at least t, or it is still in
      b and holds at least t. */
  ghost predicate Attests(w: seq<Installed>, s: State, p: Process, b: nat, t: int) {
    && b < |w| && p in w[b].members && p in s.servers
    && (if (p, b) in s.sent then s.sent[(p, b)].reg.ts >= t
        else s.servers[p].cur == b && s.servers[p].reg.ts >= t)
  }

  /** Server p keeps update u of view b: u is an entry of b, or p left b with it, or still holds it. */
  ghost predicate Keeps(w: seq<Installed>, s: State, p: Process, b: nat, u: Update) {
    && b < |w| && p in w[b].members && p in s.servers
    && (if (p, b) in s.sent then u in s.sent[(p, b)].recv + w[b].entries
        else s.servers[p].cur == b && u in s.servers[p].recv + w[b].entries)
  }

  ghost predicate ServerOk(w: seq<Installed>, s: State, p: Process)
    requires p in s.servers
  {
    var sv := s.servers[p];
    && sv.cur < |w| && sv.reg.ts >= 0
    && (p in w[sv.cur].members && sv.cur > 0 ==> (p, sv.cur) in s.origin)
  }

  ghost predicate SentOk(w: seq<Installed>, s: State, k: (Process, nat))
    requires k in s.sent
  {
    && k.0 in s.servers && k.1 < |w| && k.0 in w[k.1].members && k.1 <= s.servers[k.0].cur
    && s.sent[k].at < s.clock && s.sent[k].reg.ts >= 0
    && (k.1 > 0 ==> k in s.origin && s.origin[k].at < s.sent[k].at)
  }

  /** The content (reg, recv) of a server in view j carries what sender q left view j - 1 with. */
  ghost predicate Carries(w: seq<Installed>, s: State, reg: Register, recv: set<Update>, j: nat, q: Process)
    requires 0 < j < |w| && (q, j - 1) in s.sent
  {
    reg.ts >= s.sent[(q, j - 1)].reg.ts && s.sent[(q, j - 1)].recv <= recv + w[j].entries
  }

  /** Sender q of install k sent its state before the install, and the installing server carries
      that state for as long as it stays in the view and when it leaves it. */
  ghost predicate SourceOk(w: seq<Installed>, s: State, k: (Process, nat), q: Process)
    requires k in s.origin && 0 < k.1 < |w| && k.0 in s.servers
  {
    && (q, k.1 - 1) in s.sent && s.sent[(q, k.1 - 1)].at < s.origin[k].at
    && (k in s.sent ==> Carries(w, s, s.sent[k].reg, s.sent[k].recv, k.1, q))
    && (s.servers[k.0].cur == k.1 ==> Carries(w, s, s.servers[k.0].reg, s.servers[k.0].recv, k.1, q))
  }

  /** Each install merged the states of a quorum of the view before. */
  ghost predicate OriginOk(w: seq<Installed>, s: State, k: (Process, nat))
    requires k in s.origin
  {
    && 0 < k.1 < |w| && k.0 in s.servers && k.1 <= s.servers[k.0].cur && s.origin[k].at < s.clock
    && IsQuorum(s.origin[k].from, w[k.1 - 1].members)
    && forall q {:trigger SourceOk(w, s, k, q)} | q in s.origin[k].from :: SourceOk(w, s, k, q)
  }

  ghost predicate Grounded(w: seq<Installed>, s: State) {
    && Chain(w)
    && (forall p {:trigger ServerOk(w, s, p)} | p in s.servers :: ServerOk(w, s, p))
    && (forall k {:trigger SentOk(w, s, k)} | k in s.sent :: SentOk(w, s, k))
    && (forall k {:trigger OriginOk(w, s, k)} | k in s.origin :: OriginOk(w, s, k))
  }

  lemma InitGrounded(w: seq<Installed>, s: State)
    requires Chain(w) && Init(w, s)
    ensures Grounded(w, s)
  {
  }

  // ----- how a step may change the servers -----

  lemma {:induction false} CacheAt(w: seq<Installed>, i: nat)
    requires CachesExact(w) && i < |w|
    ensures w[i].members == Members(w[i].entries)
  {
    if i < |w| - 1 { CacheAt(w[..|w| - 1], i); }
  }

  lemma {:induction false} GoneForGood(w: seq<Installed>, i: nat, j: nat, k: nat, p: Process)
    requires Chain(w) && CachesExact(w) && i <= j < k < |w|
    requires p in w[i].members && p !in w[j].members
    ensures p !in w[k].members
  {
    CacheAt(w, i);
    CacheAt(w, j);
    CacheAt(w, k);
    LeaversNeverReturn(w[i].entries, w[j].entries, w[k].entries, p);
  }

  /** An installing server that belonged to the view it came from had sent its state. */
  lemma {:induction false} LeavesOnlyAfterSending(w: seq<Installed>, s: State, p: Process, i: nat, order: seq<Process>)
    requires Grounded(w, s) && CachesExact(w) && Enabled(w, s, Install(p, i, order))
    ensures s.servers[p].cur <= i && s.servers[p].cur < |w|
    ensures p in w[s.servers[p].cur].members ==> (p, s.servers[p].cur) in s.sent
    ensures (p, i + 1) !in s.origin && (p, i + 1) !in s.sent
  {
    var c := s.servers[p].cur;
    if p in w[c].members && p !in w[i].members {
      GoneForGood(w, c, i, i + 1, p);
    }
    var k: (Process, nat) := (p, i + 1);
    assert k in s.origin ==> OriginOk(w, s, k);
    assert k in s.sent ==> SentOk(w, s, k);
  }

  /** How one server may change in a step: within a view its timestamp and pending updates only
      grow, and as a member it leaves the view only after sending its state. */
  ghost predicate ServerStep(w: seq<Installed>, s: State, s': State, p: Process)
    requires p in s.servers && p in s'.servers
  {
    var a, b := s.servers[p], s'.servers[p];
    && a.cur <= b.cur
    && (a.cur == b.cur ==> a.reg.ts <= b.reg.ts && a.recv <= b.recv)
    && (a.cur != b.cur ==> a.cur < |w| && (p in w[a.cur].members ==> (p, a.cur) in s.sent))
  }

  /** A state message is never changed, and a new one is the sender's content at that moment. */
  ghost predicate SentStep(s: State, s': State, k: (Process, nat)) {
    && (k in s.sent ==> k in s'.sent && s'.sent[k] == s.sent[k])
    && (k !in s.sent && k in s'.sent ==>
          && k.0 in s.servers && s.servers[k.0].cur == k.1
          && s'.sent[k] == StateMsg(s.servers[k.0].reg, s.servers[k.0].recv, s.clock))
  }

  ghost predicate OriginStep(s: State, s': State, k: (Process, nat)) {
    k in s.origin ==> k in s'.origin && s'.origin[k] == s.origin[k]
  }

  /** Everything later steps rely on. */
  ghost predicate Extends(w: seq<Installed>, s: State, s': State) {
    && s.clock < s'.clock
    && s'.servers.Keys == s.servers.Keys
    && (forall p {:trigger ServerStep(w, s, s', p)} | p in s.servers :: ServerStep(w, s, s', p))
    && (forall k {:trigger SentStep(s, s', k)} :: SentStep(s, s', k))
    && (forall k {:trigger OriginStep(s, s', k)} :: OriginStep(s, s', k))
  }

  lemma {:induction false} ServerSteps(w: seq<Installed>, s: State, e: Event, p: Process)
    requires Grounded(w, s) && CachesExact(w) && Enabled(w, s, e) && p in s.servers
    ensures p in NextServers(w, s, e) && ServerStep(w, s, Next(w, s, e), p)
  {
    if e.Install? { LeavesOnlyAfterSending(w, s, e.p, e.step, e.order); }
  }

  lemma SentSteps(w: seq<Installed>, s: State, e: Event, k: (Process, nat))
    requires Enabled(w, s, e)
    ensures SentStep(s, Next(w, s, e), k)
  {
  }

  lemma {:induction false} OriginSteps(w: seq<Installed>, s: State, e: Event, k: (Process, nat))
    requires Grounded(w, s) && CachesExact(w) && Enabled(w, s, e)
    ensures OriginStep(s, Next(w, s, e), k)
  {
    if e.Install? { LeavesOnlyAfterSending(w, s, e.p, e.step, e.order); }
  }

  lemma {:induction false} StepExtends(w: seq<Installed>, s: State, e: Event)
    requires Grounded(w, s) && CachesExact(w) && Enabled(w, s, e)
    ensures Extends(w, s, Next(w, s, e))
  {
    var s' := Next(w, s, e);
    assert s'.servers.Keys == s.servers.Keys;
    forall p | p in s.servers ensures ServerStep(w, s, s', p) { ServerSteps(w, s, e, p); }
    forall k ensures SentStep(s, s', k) { SentSteps(w, s, e, k); }
    forall k ensures OriginStep(s, s', k) { OriginSteps(w, s, e, k); }
  }

  lemma AttestsStable(w: seq<Installed>, s: State, s': State, p: Process, b: nat, t: int)
    requires Extends(w, s, s') && Attests(w, s, p, b, t)
    ensures Attests(w, s', p, b, t)
  {
    assert ServerStep(w, s, s', p) && SentStep(s, s', (p, b));
  }

  lemma KeepsStable(w: seq<Installed>, s: State, s': State, p: Process, b: nat, u: Update)
    requires Extends(w, s, s') && Keeps(w, s, p, b, u)
    ensures Keeps(w, s', p, b, u)
  {
    assert ServerStep(w, s, s', p) && SentStep(s, s', (p, b));
  }

  // ----- preservation -----

  lemma InstallMerges(w: seq<Installed>, s: State, e: Event, q: Process)
    requires Grounded(w, s) && e.Install? && Enabled(w, s, e) && q in e.order
    ensures q in w[e.step].members && s.sent[(q, e.step)].at < s.clock
    ensures var sv := NextServers(w, s, e)[e.p];
            Carries(w, s, sv.reg, sv.recv, e.step + 1, q) && sv.reg.ts >= 0
  {
    assert SentOk(w, s, (q, e.step));
    var regs := SentRegs(e.order, e.step, s.sent);
    var i :| 0 <= i < |e.order| && e.order[i] == q;
    assert regs[i] == s.sent[(q, e.step)].reg;
    assert regs[i] in regs;
  }

  lemma InstallQuorum(w: seq<Installed>, s: State, e: Event)
    requires Grounded(w, s) && e.Install? && Enabled(w, s, e)
    ensures IsQuorum(AsSet(e.order), w[e.step].members)
    ensures e.order != []
  {
    DistinctCardinality(e.order);
    QuorumSizeIsMajority(|w[e.step].members|);
    forall q | q in e.order
      ensures q in w[e.step].members
    {
      assert SentOk(w, s, (q, e.step));
    }
  }

  lemma ServersKept(w: seq<Installed>, s: State, e: Event)
    requires Grounded(w, s) && Enabled(w, s, e)
    ensures var s' := Next(w, s, e); forall p | p in s'.servers :: ServerOk(w, s', p)
  {
    if e.Install? {
      InstallQuorum(w, s, e);
      InstallMerges(w, s, e, e.order[0]);
    }
    var s' := Next(w, s, e);
    forall p | p in s'.servers ensures ServerOk(w, s', p) { assert ServerOk(w, s, p); }
  }

  lemma SentKept(w: seq<Installed>, s: State, e: Event)
    requires Grounded(w, s) && Enabled(w, s, e) && Extends(w, s, Next(w, s, e))
    ensures var s' := Next(w, s, e); forall k | k in s'.sent :: SentOk(w, s', k)
  {
    var s' := Next(w, s, e);
    forall k | k in s'.sent
      ensures SentOk(w, s', k)
    {
      assert SentStep(s, s', k) && OriginStep(s, s', k);
      if k in s.sent {
        assert SentOk(w, s, k) && ServerStep(w, s, s', k.0);
      } else {
        assert ServerOk(w, s, k.0) && ServerStep(w, s, s', k.0);
        if k.1 > 0 { assert OriginOk(w, s, k); }
      }
    }
  }

  lemma SourceStays(w: seq<Installed>, s: State, s': State, k: (Process, nat), q: Process)
    requires Grounded(w, s) && Extends(w, s, s') && k in s.origin && k in s'.origin && q in s.origin[k].from
    ensures 0 < k.1 < |w| && k.0 in s.servers && SourceOk(w, s', k, q)
  {
    assert OriginOk(w, s, k) && OriginStep(s, s', k);
    assert SourceOk(w, s, k, q);
    assert SentStep(s, s', k) && SentStep(s, s', (q, k.1 - 1)) && ServerStep(w, s, s', k.0);
  }

  lemma OriginStays(w: seq<Installed>, s: State, s': State, k: (Process, nat))
    requires Grounded(w, s) && Extends(w, s, s') && k in s.origin
    ensures k in s'.origin && OriginOk(w, s', k)
  {
    assert OriginOk(w, s, k) && OriginStep(s, s', k) && ServerStep(w, s, s', k.0);
    forall q | q in s'.origin[k].from
      ensures SourceOk(w, s', k, q)
    {
      SourceStays(w, s, s', k, q);
    }
  }

  lemma {:induction false} NewOrigin(w: seq<Installed>, s: State, e: Event)
    requires Grounded(w, s) && CachesExact(w) && e.Install? && Enabled(w, s, e)
    ensures OriginOk(w, Next(w, s, e), (e.p, e.step + 1))
  {
    var s', k: (Process, nat) := Next(w, s, e), (e.p, e.step + 1);
    LeavesOnlyAfterSending(w, s, e.p, e.step, e.order);
    InstallQuorum(w, s, e);
    forall q | q in s'.origin[k].from
      ensures SourceOk(w, s', k, q)
    {
      InstallMerges(w, s, e, q);
    }
  }

  lemma {:induction false} StepGrounded(w: seq<Installed>, s: State, e: Event)
    requires Grounded(w, s) && CachesExact(w) && Enabled(w, s, e)
    ensures Grounded(w, Next(w, s, e)) && Extends(w, s, Next(w, s, e))
  {
    StepExtends(w, s, e);
    ServersKept(w, s, e);
    SentKept(w, s, e);
    var s' := Next(w, s, e);
    forall k | k in s'.origin
      ensures OriginOk(w, s', k)
    {
      if e.Install? && k == (e.p, e.step + 1) { NewOrigin(w, s, e); } else { OriginStays(w, s, s', k); }
    }
  }

  // ----- what a quorum vouched for reaches every later view -----

  /** Server p is in view j, or has left it by sending its state. */
  ghost predicate WasIn(w: seq<Installed>, s: State, p: Process, j: nat) {
    j < |w| && p in w[j].members && p in s.servers && (s.servers[p].cur == j || (p, j) in s.sent)
  }

  lemma WasInHasOrigin(w: seq<Installed>, s: State, p: Process, j: nat)
    requires Grounded(w, s) && WasIn(w, s, p, j) && j > 0
    ensures (p, j) in s.origin && OriginOk(w, s, (p, j))
  {
    assert ServerOk(w, s, p);
    assert (p, j) in s.sent ==> SentOk(w, s, (p, j));
  }

  lemma SourceWasIn(w: seq<Installed>, s: State, p: Process, j: nat, q: Process)
    requires Grounded(w, s) && (p, j) in s.origin && q in s.origin[(p, j)].from
    ensures 0 < j < |w| && p in s.servers && SourceOk(w, s, (p, j), q) && WasIn(w, s, q, j - 1)
  {
    assert OriginOk(w, s, (p, j));
    assert SourceOk(w, s, (p, j), q);
    assert SentOk(w, s, (q, j - 1));
  }

  /** If a quorum of view b vouches for t, every server of a later view vouches for t. */
  lemma {:induction false} LaterViewsAttest(
      w: seq<Installed>, s: State, b: nat, t: int, quorum: set<Process>, j: nat, p: Process)
    requires Grounded(w, s) && b < j && WasIn(w, s, p, j)
    requires IsQuorum(quorum, w[b].members) && forall q | q in quorum :: Attests(w, s, q, b, t)
    ensures (p, j) in s.sent ==> s.sent[(p, j)].reg.ts >= t
    ensures s.servers[p].cur == j ==> s.servers[p].reg.ts >= t
    decreases j
  {
    WasInHasOrigin(w, s, p, j);
    var from := s.origin[(p, j)].from;
    if j == b + 1 {
      var q := QuorumsIntersect(w[b].members, quorum, from);
      SourceWasIn(w, s, p, j, q);
    } else {
      var q := QuorumNonEmpty(w[j - 1].members, from);
      SourceWasIn(w, s, p, j, q);
      LaterViewsAttest(w, s, b, t, quorum, j - 1, q);
    }
  }

  /** If a quorum of view b keeps update u, every server of a later view has it as an entry
      of that view or among its pending updates. */
  lemma {:induction false} LaterViewsKeep(
      w: seq<Installed>, s: State, b: nat, u: Update, quorum: set<Process>, j: nat, p: Process)
    requires Grounded(w, s) && b < j && WasIn(w, s, p, j)
    requires IsQuorum(quorum, w[b].members) && forall q | q in quorum :: Keeps(w, s, q, b, u)
    ensures (p, j) in s.sent ==> u in s.sent[(p, j)].recv + w[j].entries
    ensures s.servers[p].cur == j ==> u in s.servers[p].recv + w[j].entries
    decreases j
  {
    WasInHasOrigin(w, s, p, j);
    var from := s.origin[(p, j)].from;
    assert w[j - 1].entries < w[j].entries;
    if j == b + 1 {
      var q := QuorumsIntersect(w[b].members, quorum, from);
      SourceWasIn(w, s, p, j, q);
    } else {
      var q := QuorumNonEmpty(w[j - 1].members, from);
      SourceWasIn(w, s, p, j, q);
      LaterViewsKeep(w, s, b, u, quorum, j - 1, q);
    }
  }

  /** Some server installed w[j] before time T. */
  ghost predicate InstalledBefore(s: State, j: nat, T: nat) {
    exists p :: (p, j) in s.origin && s.origin[(p, j)].at < T
  }

  /** Installs go through the chain one view at a time. */
  lemma {:induction false} EarlierViewsInstalled(w: seq<Installed>, s: State, i: nat, j: nat, T: nat)
    requires Grounded(w, s) && 0 < i <= j && InstalledBefore(s, j, T)
    ensures InstalledBefore(s, i, T)
    decreases j
  {
    if i < j {
      var p :| (p, j) in s.origin && s.origin[(p, j)].at < T;
      assert OriginOk(w, s, (p, j));
      var q := QuorumNonEmpty(w[j - 1].members, s.origin[(p, j)].from);
      SourceWasIn(w, s, p, j, q);
      assert SentOk(w, s, (q, j - 1));
      assert (q, j - 1) in s.origin;
      EarlierViewsInstalled(w, s, i, j - 1, T);
    }
  }
}
