/**
 One server's side of reconfiguration (pkg/server/reconfiguration.go): Reconfig requests, the
 start of a reconfiguration, and what a server does once it has a quorum of one install
 sequence, including the register lock. Every sequence of such events is a run.
 */
module Reconfiguration {
  import opened Views
  import opened ViewSeqs
  import opened QuorumCounters
  import RegisterSystem

  type Register = RegisterSystem.Register

  /** Running; blocked for ever on its own register lock; ended by unlocking an unlocked mutex;
      or waiting to leave. */
  datatype Status = Running | Deadlocked | Crashed | Leaving

  datatype Node = Node(
    view: View, reg: Register, recv: set<Update>,
    locked: bool,             // register.mu is held by the reconfiguration
    once: bool,               // registerLockOnce has fired since its last reset
    checked: bool,            // startReconfiguration has seen pending updates and not yet proposed
    status: Status)

  /** The merged state that syncState receives. */
  datatype Merged = Merged(reg: Register, recv: set<Update>)

  datatype Event =
    | Reconfig(associated: View, update: Update)
    | Check
    | Propose
    | Install(inst: InstallSeq, merged: Merged)

  /** A server starts with its register locked exactly when it is not in its initial view. */
  function Fresh(self: Process, initialView: View): Node {
    Node(initialView, RegisterSystem.INITIAL, {}, self !in Members(initialView), false, false, Running)
  }

  // ----- steps -----

  /** Reconfig: a request for another view is refused; an update already in the view is not kept. */
  function OnReconfig(n: Node, associated: View, update: Update): (Node, bool) {
    if associated != n.view then (n, false)
    else if update in n.view then (n, true)
    else (n.(recv := n.recv + {update}), true)
  }

  /** The views of s strictly more updated than v, in order. */
  function MoreUpdated(s: ViewSeq, v: View): (r: ViewSeq)
    ensures forall x :: x in r <==> x in s && v < x
  {
    if s == [] then []
    else
      assert s == [s[0]] + s[1..];
      (if v < s[0] then [s[0]] else []) + MoreUpdated(s[1..], v)
  }

  /** The register lock at the start of gotInstallSeqQuorum. */
  function Locking(self: Process, n: Node, inst: InstallSeq): Node {
    if self in Members(inst.associated) && n.view < inst.install && !n.once
    then if n.locked then n.(status := Deadlocked) else n.(locked := true, once := true)
    else n
  }

  /** syncState and updateCurrentViewLocked. */
  function Synced(n: Node, inst: InstallSeq, merged: Merged): Node {
    n.(reg := merged.reg, recv := n.recv + merged.recv - inst.install, view := inst.install)
  }

  /** The end of an install: go on with the remaining views, or unlock. */
  function Finished(self: Process, n: Node, inst: InstallSeq): Node {
    if MoreUpdated(inst.views, n.view) != [] then n
    else if !n.locked then n.(status := Crashed)
    else n.(locked := false, once := if self in Members(inst.associated) then false else n.once)
  }

  /** gotInstallSeqQuorum: the next state and the sequence the server goes on to generate. */
  function OnInstall(self: Process, n: Node, inst: InstallSeq, merged: Merged): (Node, ViewSeq) {
    var m := Locking(self, n, inst);
    if m.status != Running then (m, [])
    else if !(n.view < inst.install) then (m, MoreUpdated(inst.views, n.view))
    else if self in Members(inst.install) then
      var t := Synced(m, inst, merged);
      (Finished(self, t, inst), MoreUpdated(inst.views, t.view))
    else (m.(status := Leaving), [])
  }

  /** What an install that goes through leaves in the server. */
  lemma InstalledNode(self: Process, n: Node, inst: InstallSeq, merged: Merged)
    requires n.status == Running && n.view < inst.install && self in Members(inst.install)
    ensures var n' := OnInstall(self, n, inst, merged).0;
            if Locking(self, n, inst).status == Running
            then n'.view == inst.install && n'.reg == merged.reg && n'.recv == n.recv + merged.recv - inst.install
            else n' == n.(status := Deadlocked)
  {
  }

  /** getInitialViewSeqLocked. */
  function InitialSeq(n: Node): ViewSeq {
    [n.view + n.recv]
  }

  function Next(self: Process, n: Node, e: Event): Node {
    if n.status != Running then n
    else
      match e
      case Reconfig(associated, update) => OnReconfig(n, associated, update).0
      case Check => n.(checked := n.checked || n.recv != {})
      case Propose => n.(checked := false)
      case Install(inst, merged) => OnInstall(self, n, inst, merged).0
  }

  /** The sequence a step hands to a view generator, for the view the server has after it. */
  function Proposed(self: Process, n: Node, e: Event): ViewSeq {
    if n.status != Running then []
    else
      match e
      case Propose => if n.checked then InitialSeq(n) else []
      case Install(inst, merged) => OnInstall(self, n, inst, merged).1
      case _ => []
  }

  ghost predicate Run(self: Process, initialView: View, tr: seq<Node>, es: seq<Event>) {
    && |tr| == |es| + 1
    && tr[0] == Fresh(self, initialView)
    && forall i | 0 <= i < |es| :: tr[i + 1] == Next(self, tr[i], es[i])
  }

  // ----- pending updates and views -----

  lemma OnlyPending(self: Process, n: Node, e: Event)
    requires n.recv !! n.view
    ensures Next(self, n, e).recv !! Next(self, n, e).view
    ensures Next(self, n, e).view == n.view || n.view < Next(self, n, e).view
    ensures !e.Install? ==> n.recv <= Next(self, n, e).recv && Next(self, n, e).view == n.view
  {
  }

  lemma {:induction false} PendingDisjoint(self: Process, initialView: View, tr: seq<Node>, es: seq<Event>, i: nat)
    requires Run(self, initialView, tr, es) && i < |tr|
    ensures tr[i].recv !! tr[i].view
  {
    if i > 0 {
      PendingDisjoint(self, initialView, tr, es, i - 1);
      OnlyPending(self, tr[i - 1], es[i - 1]);
    }
  }

  /** In every run pending updates are not entries of the current view, and the current view
      changes only to a strict superset. */
  lemma ViewsOnlyGrow(self: Process, initialView: View, tr: seq<Node>, es: seq<Event>, i: nat)
    requires Run(self, initialView, tr, es) && i < |es|
    ensures tr[i].recv !! tr[i].view
    ensures tr[i + 1].view == tr[i].view || tr[i].view < tr[i + 1].view
  {
    PendingDisjoint(self, initialView, tr, es, i);
    OnlyPending(self, tr[i], es[i]);
  }

  /** assertOnlyUpdatedViews. */
  method OnlyUpdatedViews(base: View, s: ViewSeq) returns (ok: bool)
    ensures ok <==> forall v | v in s :: base <= v
  {
    for i := 0 to |s|
      invariant forall j | 0 <= j < i :: base <= s[j]
    {
      var less := LessUpdatedThan(s[i], base);
      if less { return false; }
    }
    return true;
  }

  /** Everything a server hands to a view generator extends the view it has then, so the
      assertion never ends the process; and what it goes on with after an install extends it
      strictly. */
  lemma ProposalsExtendTheView(self: Process, initialView: View, tr: seq<Node>, es: seq<Event>, i: nat, v: View)
    requires Run(self, initialView, tr, es) && i < |es| && v in Proposed(self, tr[i], es[i])
    ensures tr[i + 1].view <= v
    ensures es[i].Install? ==> tr[i + 1].view < v
  {
  }

  lemma {:induction false} MoreUpdatedPicks(s: ViewSeq, v: View, keep: View -> bool) returns (idx: seq<nat>)
    requires forall x :: keep(x) <==> v < x
    ensures PicksAt(s, MoreUpdated(s, v), keep, idx)
  {
    idx := [];
    if s != [] {
      var rest := MoreUpdatedPicks(s[1..], v, keep);
      if v < s[0] {
        idx := [0] + Shifted(rest);
        PickFirst(s, MoreUpdated(s[1..], v), keep, rest);
      } else {
        idx := Shifted(rest);
        SkipFirst(s, MoreUpdated(s[1..], v), keep, rest);
        assert [] + MoreUpdated(s[1..], v) == MoreUpdated(s[1..], v);
      }
    }
  }

  /** Conversely, a server that runs on after an install hands exactly the views of the sequence that
      are strictly more updated than its own to a generator, in their order, whether the install view
      was newer or not. */
  lemma RemainingViewsAreProposed(self: Process, initialView: View, tr: seq<Node>, es: seq<Event>, i: nat)
    returns (idx: seq<nat>)
    requires Run(self, initialView, tr, es) && i < |es| && es[i].Install?
    requires tr[i].status == Running && tr[i + 1].status == Running
    ensures PicksAt(es[i].inst.views, Proposed(self, tr[i], es[i]), x => tr[i + 1].view < x, idx)
  {
    idx := MoreUpdatedPicks(es[i].inst.views, tr[i + 1].view, x => tr[i + 1].view < x);
  }

  /** A reconfiguration is started only if the check found pending updates, and once for each check. */
  lemma {:induction false} StartedOnlyIfPending(self: Process, initialView: View, tr: seq<Node>, es: seq<Event>, i: nat)
    returns (k: nat)
    requires Run(self, initialView, tr, es) && i < |tr| && tr[i].checked
    ensures k < i && es[k] == Check && tr[k].status == Running && tr[k].recv != {}
    ensures tr[i].status == Running ==> forall j | k < j < i :: es[j] != Propose
  {
    if tr[i - 1].checked {
      k := StartedOnlyIfPending(self, initialView, tr, es, i - 1);
    } else {
      k := i - 1;
    }
  }

  /** And it is started whenever it did. */
  lemma PendingIsStarted(self: Process, initialView: View, tr: seq<Node>, es: seq<Event>, i: nat)
    requires Run(self, initialView, tr, es) && i < |es| && es[i] == Check && tr[i].status == Running && tr[i].recv != {}
    ensures tr[i + 1].checked && tr[i + 1].status == Running
    ensures Proposed(self, tr[i + 1], Propose) == [tr[i].view + tr[i].recv]
  {
  }

  /** A started reconfiguration proposes a strict extension exactly when updates are still
      pending at that moment. */
  lemma StrictIffPending(self: Process, initialView: View, tr: seq<Node>, es: seq<Event>, i: nat)
    requires Run(self, initialView, tr, es) && i < |es| && es[i] == Propose && tr[i].status == Running && tr[i].checked
    ensures Proposed(self, tr[i], es[i]) == [tr[i].view + tr[i].recv]
    ensures tr[i].view < tr[i].view + tr[i].recv <==> tr[i].recv != {}
  {
    PendingDisjoint(self, initialView, tr, es, i);
    if tr[i].recv != {} {
      var u :| u in tr[i].recv;
      assert u in tr[i].view + tr[i].recv && u !in tr[i].view;
    }
  }

  lemma {:induction false} PendingStays(self: Process, tr: seq<Node>, es: seq<Event>, i: nat, j: nat)
    requires |tr| == |es| + 1 && forall k | 0 <= k < |es| :: tr[k + 1] == Next(self, tr[k], es[k])
    requires i <= j < |tr| && forall k | i <= k < j :: !es[k].Install?
    ensures tr[i].recv <= tr[j].recv
    decreases j
  {
    if i < j {
      PendingStays(self, tr, es, i, j - 1);
      assert !es[j - 1].Install?;
    }
  }

  /** If no install intervenes between the check for pending updates and the proposal, the
      proposal is a strict extension. */
  lemma StrictWithoutInstall(self: Process, initialView: View, tr: seq<Node>, es: seq<Event>, i: nat, j: nat)
    requires Run(self, initialView, tr, es) && i < j < |es| && es[i] == Check && es[j] == Propose
    requires tr[i].recv != {} && tr[j].status == Running && tr[j].checked
    requires forall k | i <= k < j :: !es[k].Install?
    ensures Proposed(self, tr[j], es[j]) == [tr[j].view + tr[j].recv] && tr[j].view < tr[j].view + tr[j].recv
  {
    PendingStays(self, tr, es, i, j);
    StrictIffPending(self, initialView, tr, es, j);
  }

  /** The two are separate critical sections: an install in between can consume the updates, and
      the server then proposes the view it already has. */
  lemma RaceProposesTheSameView(self: Process, v: View, u: Update)
    returns (tr: seq<Node>, es: seq<Event>)
    requires self in Members(v) && self in Members(v + {u}) && u !in v
    ensures Run(self, v, tr, es) && |es| == 4 && es[1] == Check && es[3] == Propose
    ensures Proposed(self, tr[3], es[3]) == [tr[3].view]
  {
    var inst := InstallSeq(v, v + {u}, [v + {u}]);
    var merged := Merged(RegisterSystem.INITIAL, {u});
    var s0 := Fresh(self, v);
    var s1 := s0.(recv := {u});
    var s2 := s1.(checked := true);
    var t := Synced(s2.(locked := true, once := true), inst, merged);
    assert {u} + {u} - (v + {u}) == {};
    assert MoreUpdated(inst.views, t.view) == [] by {
      assert forall x :: x !in MoreUpdated(inst.views, t.view);
    }
    var s3 := t.(locked := false, once := false);
    es := [Reconfig(v, u), Check, Install(inst, merged), Propose];
    tr := [s0, s1, s2, s3, s3.(checked := false)];
    assert {} + {u} == {u};
    assert v < v + {u};
    assert Locking(self, s2, inst) == s2.(locked := true, once := true);
    assert OnInstall(self, s2, inst, merged).0 == s3;
    assert s3.view + s3.recv == s3.view;
  }

  // ----- the register lock -----

  /** The lock is held exactly when registerLockOnce has fired since its last reset. */
  ghost predicate LockOk(n: Node) {
    n.status == Running && (n.locked <==> n.once)
  }

  /** A server whose register is unlocked is a member of its view. */
  predicate ServesAsMember(self: Process, n: Node) {
    n.status == Running && !n.locked ==> self in Members(n.view)
  }

  /** It holds in every run, for members and joiners alike. */
  lemma {:induction false} UnlockedIsMember(self: Process, initialView: View, tr: seq<Node>, es: seq<Event>, i: nat)
    requires Run(self, initialView, tr, es) && i < |tr|
    ensures ServesAsMember(self, tr[i])
  {
    if i > 0 { UnlockedIsMember(self, initialView, tr, es, i - 1); }
  }

  ghost predicate MemberThroughout(self: Process, e: Event) {
    e.Install? ==> self in Members(e.inst.associated) && self in Members(e.inst.install)
  }

  /** For a server that starts in its view and belongs to the views of every install sequence it
      handles: the lock is held exactly when the once has fired, the server never blocks on its
      own lock, and it unlocks only while the lock is held. */
  lemma {:induction false} MembersLockProperly(
      self: Process, initialView: View, tr: seq<Node>, es: seq<Event>, i: nat)
    requires Run(self, initialView, tr, es) && i < |tr| && self in Members(initialView)
    requires forall k | 0 <= k < |es| :: MemberThroughout(self, es[k])
    ensures LockOk(tr[i])
  {
    if i > 0 {
      MembersLockProperly(self, initialView, tr, es, i - 1);
      assert MemberThroughout(self, es[i - 1]);
    }
  }

  /** When an install goes wrong, for any server: it blocks for ever exactly if it must lock but
      already holds the lock, and crashes exactly if it must unlock but does not hold it. */
  lemma InstallOutcome(self: Process, n: Node, inst: InstallSeq, merged: Merged)
    requires n.status == Running
    ensures var n' := OnInstall(self, n, inst, merged).0;
            var newer := n.view < inst.install;
            var before, after := self in Members(inst.associated), self in Members(inst.install);
            var last := forall v | v in inst.views :: !(inst.install < v);
            && (n'.status == Deadlocked <==> newer && before && n.locked && !n.once)
            && (n'.status == Crashed <==> newer && after && last && !n.locked && (before ==> n.once))
            && (n'.status == Leaving <==> newer && !after && !(before && n.locked && !n.once))
  {
    NothingAhead(inst.views, inst.install);
  }

  /** Event e is an install, newer than the view v, that ends a sequence for this server. */
  ghost predicate Unlocks(self: Process, v: View, e: Event) {
    && e.Install? && v < e.inst.install && self in Members(e.inst.install)
    && forall x | x in e.inst.views :: !(e.inst.install < x)
  }

  /** The server started outside its initial view and no install has unlocked it yet. */
  ghost predicate StillJoining(self: Process, initialView: View, tr: seq<Node>, es: seq<Event>, i: nat)
    requires |tr| == |es| + 1 && i < |tr|
  {
    self !in Members(initialView) && forall k | 0 <= k < i :: !Unlocks(self, tr[k].view, es[k])
  }

  /** In every run the lock is held without the once exactly by a server that is still joining. */
  lemma {:induction false} LockedWithoutOnce(self: Process, initialView: View, tr: seq<Node>, es: seq<Event>, i: nat)
    requires Run(self, initialView, tr, es) && i < |tr| && tr[i].status == Running
    ensures tr[i].locked && !tr[i].once <==> StillJoining(self, initialView, tr, es, i)
  {
    if i > 0 {
      var n, e := tr[i - 1], es[i - 1];
      LockedWithoutOnce(self, initialView, tr, es, i - 1);
      if e.Install? { InstallOutcome(self, n, e.inst, e.merged); }
      LockStep(self, n, e);
      assert StillJoining(self, initialView, tr, es, i) <==>
             StillJoining(self, initialView, tr, es, i - 1) && !Unlocks(self, tr[i - 1].view, es[i - 1]);
    }
  }

  /** How one step changes the lock of a server that runs on. */
  lemma LockStep(self: Process, n: Node, e: Event)
    requires n.status == Running && Next(self, n, e).status == Running
    ensures var n' := Next(self, n, e);
            n'.locked && !n'.once <==> n.locked && !n.once && !Unlocks(self, n.view, e)
  {
    if e.Install? {
      NothingAhead(e.inst.views, e.inst.install);
      InstallLock(self, n, e.inst, e.merged);
    }
  }

  lemma InstallLock(self: Process, n: Node, inst: InstallSeq, merged: Merged)
    requires n.status == Running && OnInstall(self, n, inst, merged).0.status == Running
    ensures var n' := OnInstall(self, n, inst, merged).0;
            var joins := n.view < inst.install && self in Members(inst.install);
            n'.locked && !n'.once <==>
              n.locked && !n.once && !(joins && MoreUpdated(inst.views, inst.install) == [])
  {
  }

  lemma {:induction false} NothingAhead(s: ViewSeq, v: View)
    ensures MoreUpdated(s, v) == [] <==> forall x | x in s :: !(v < x)
  {
    if MoreUpdated(s, v) != [] { assert MoreUpdated(s, v)[0] in MoreUpdated(s, v); }
  }

  /** A run blocks for ever exactly at a newer install whose associated view contains the server
      while it is still joining. */
  lemma DeadlockIffStillJoining(self: Process, initialView: View, tr: seq<Node>, es: seq<Event>, i: nat)
    requires Run(self, initialView, tr, es) && i < |es| && tr[i].status == Running
    ensures tr[i + 1].status == Deadlocked <==>
            && es[i].Install? && tr[i].view < es[i].inst.install && self in Members(es[i].inst.associated)
            && StillJoining(self, initialView, tr, es, i)
  {
    LockedWithoutOnce(self, initialView, tr, es, i);
    if es[i].Install? { InstallOutcome(self, tr[i], es[i].inst, es[i].merged); }
  }

  // ----- when the once has fired and the lock is held, in terms of views and installs -----

  /** Event e is an install, newer than the view v, from an associated view with the server. */
  ghost predicate Fires(self: Process, v: View, e: Event) {
    e.Install? && v < e.inst.install && self in Members(e.inst.associated)
  }

  /** The end of a sequence resets the once only if the associated view contains the server. */
  ghost predicate Resets(self: Process, v: View, e: Event) {
    Unlocks(self, v, e) && self in Members(e.inst.associated)
  }

  /** Event k fired the once, and no event from then on, before i, has reset it. */
  ghost predicate FiredBy(self: Process, tr: seq<Node>, es: seq<Event>, k: nat, i: nat)
    requires |tr| == |es| + 1 && i < |tr|
  {
    k < i && Fires(self, tr[k].view, es[k]) && forall r | k <= r < i :: !Resets(self, tr[r].view, es[r])
  }

  ghost predicate Fired(self: Process, tr: seq<Node>, es: seq<Event>, i: nat)
    requires |tr| == |es| + 1 && i < |tr|
  {
    exists k: nat :: FiredBy(self, tr, es, k, i)
  }

  /** Event k found the once not fired and locked the register, and none has unlocked it since. */
  ghost predicate HeldBy(self: Process, tr: seq<Node>, es: seq<Event>, k: nat, i: nat)
    requires |tr| == |es| + 1 && i < |tr|
  {
    && k < i && Fires(self, tr[k].view, es[k]) && !Fired(self, tr, es, k)
    && forall r | k <= r < i :: !Unlocks(self, tr[r].view, es[r])
  }

  ghost predicate Held(self: Process, tr: seq<Node>, es: seq<Event>, i: nat)
    requires |tr| == |es| + 1 && i < |tr|
  {
    exists k: nat :: HeldBy(self, tr, es, k, i)
  }

  lemma FiredNext(self: Process, tr: seq<Node>, es: seq<Event>, i: nat)
    requires |tr| == |es| + 1 && i < |es|
    ensures var v, e := tr[i].view, es[i];
            Fired(self, tr, es, i + 1) <==> (Fired(self, tr, es, i) || Fires(self, v, e)) && !Resets(self, v, e)
  {
    var j := i + 1;
    if k: nat :| FiredBy(self, tr, es, k, j) {
      if k < i { assert FiredBy(self, tr, es, k, i); }
    }
    if !Resets(self, tr[i].view, es[i]) {
      if k: nat :| FiredBy(self, tr, es, k, i) { assert FiredBy(self, tr, es, k, i + 1); }
      if Fires(self, tr[i].view, es[i]) { assert FiredBy(self, tr, es, i, i + 1); }
    }
  }

  lemma HeldNext(self: Process, tr: seq<Node>, es: seq<Event>, i: nat)
    requires |tr| == |es| + 1 && i < |es|
    ensures var v, e := tr[i].view, es[i];
            Held(self, tr, es, i + 1) <==>
              (Held(self, tr, es, i) || (Fires(self, v, e) && !Fired(self, tr, es, i))) && !Unlocks(self, v, e)
  {
    var j := i + 1;
    if k: nat :| HeldBy(self, tr, es, k, j) {
      if k < i { assert HeldBy(self, tr, es, k, i); }
    }
    if !Unlocks(self, tr[i].view, es[i]) {
      if k: nat :| HeldBy(self, tr, es, k, i) { assert HeldBy(self, tr, es, k, i + 1); }
      if Fires(self, tr[i].view, es[i]) && !Fired(self, tr, es, i) { assert HeldBy(self, tr, es, i, i + 1); }
    }
  }

  /** How one step changes the lock and the once of a server that runs on. */
  lemma LockAndOnceStep(self: Process, n: Node, e: Event)
    requires n.status == Running && Next(self, n, e).status == Running
    ensures var n' := Next(self, n, e);
            && (n'.once <==> (n.once || Fires(self, n.view, e)) && !Resets(self, n.view, e))
            && (n'.locked <==> (n.locked || (Fires(self, n.view, e) && !n.once)) && !Unlocks(self, n.view, e))
  {
    if e.Install? {
      NothingAhead(e.inst.views, e.inst.install);
      InstallOutcome(self, n, e.inst, e.merged);
      assert OnInstall(self, n, e.inst, e.merged).0 == Next(self, n, e);
    }
  }

  /** In every run the once has fired, and the lock is held, exactly as the installs say. */
  lemma {:induction false} LockIsHeldAsInstallsSay(
      self: Process, initialView: View, tr: seq<Node>, es: seq<Event>, i: nat)
    requires Run(self, initialView, tr, es) && i < |tr| && tr[i].status == Running
    ensures tr[i].once <==> Fired(self, tr, es, i)
    ensures tr[i].locked <==> StillJoining(self, initialView, tr, es, i) || Held(self, tr, es, i)
  {
    if i > 0 {
      var j := i - 1;
      LockIsHeldAsInstallsSay(self, initialView, tr, es, j);
      LockAndOnceStep(self, tr[j], es[j]);
      FiredNext(self, tr, es, j);
      HeldNext(self, tr, es, j);
    }
  }

  /** So a run ends by unlocking an unlocked register exactly at the end of a sequence that finds
      it unlocked, and that does not lock it: because the server is not in the associated view, or
      because the once is left over from a sequence that ended from a view without the server. */
  lemma CrashIffNotHeld(self: Process, initialView: View, tr: seq<Node>, es: seq<Event>, i: nat)
    requires Run(self, initialView, tr, es) && i < |es| && tr[i].status == Running
    ensures tr[i + 1].status == Crashed <==>
            && Unlocks(self, tr[i].view, es[i])
            && !StillJoining(self, initialView, tr, es, i) && !Held(self, tr, es, i)
            && (self in Members(es[i].inst.associated) ==> Fired(self, tr, es, i))
  {
    LockIsHeldAsInstallsSay(self, initialView, tr, es, i);
    if es[i].Install? { InstallOutcome(self, tr[i], es[i].inst, es[i].merged); }
  }

  /** A server that joins in the middle of a sequence of two views blocks for ever on the second:
      its register was locked from the start, without the once. */
  lemma JoinerDeadlocks(self: Process, w0: View, w1: View, w2: View, m1: Merged, m2: Merged)
    returns (tr: seq<Node>, es: seq<Event>)
    requires w0 < w1 < w2 && self !in Members(w0) && self in Members(w1) && self in Members(w2)
    ensures Run(self, w0, tr, es) && |es| == 2 && tr[1].view == w1 && tr[2].status == Deadlocked
    ensures es == [Install(InstallSeq(w0, w1, [w1, w2]), m1), Install(InstallSeq(w1, w2, [w2]), m2)]
  {
    var i1, i2 := InstallSeq(w0, w1, [w1, w2]), InstallSeq(w1, w2, [w2]);
    var s0 := Fresh(self, w0);
    var s1 := Synced(s0, i1, m1);
    assert w2 in MoreUpdated(i1.views, w1);
    assert OnInstall(self, s0, i1, m1).0 == s1;
    es := [Install(i1, m1), Install(i2, m2)];
    tr := [s0, s1, s1.(status := Deadlocked)];
  }
}
