/**
 The server object of pkg/server: the register handlers, the Reconfig handler, the merging of
 state messages, and the installation of a view, as methods that update the object in place.
 Each does what the corresponding step of RegisterSystem or Reconfiguration says.
 */
module Server {
  import opened Views
  import opened ViewSeqs
  import opened QuorumCounters
  import opened Reconfiguration
  import RegisterSystem

  type StateMsg = RegisterSystem.StateMsg

  /** The answer to a register request; a request to a server that holds its locks never returns. */
  datatype Reply = Content(reg: Register) | Ack | Old(view: View) | Blocks

  const UNSET := RegisterSystem.Register(-1, RegisterSystem.Nil)

  function RegsOf(msgs: seq<StateMsg>): seq<Register> {
    seq(|msgs|, i requires 0 <= i < |msgs| => msgs[i].reg)
  }

  function RecvOf(msgs: seq<StateMsg>): set<Update> {
    set i, u | 0 <= i < |msgs| && u in msgs[i].recv :: u
  }

  /** The state that a sequence of messages merges to. */
  function MergeOf(msgs: seq<StateMsg>): Merged {
    Merged(RegisterSystem.Newest(RegsOf(msgs), UNSET), RecvOf(msgs))
  }

  /** What the merge is: the pending updates of all, and one sender's register, none newer. */
  lemma MergeMeaning(msgs: seq<StateMsg>)
    requires msgs != [] && forall m | m in msgs :: m.reg.ts >= 0
    ensures forall m | m in msgs :: m.recv <= MergeOf(msgs).recv && m.reg.ts <= MergeOf(msgs).reg.ts
    ensures exists m :: m in msgs && m.reg == MergeOf(msgs).reg
    ensures forall u | u in MergeOf(msgs).recv :: exists m :: m in msgs && u in m.recv
  {
    var regs, top := RegsOf(msgs), MergeOf(msgs).reg;
    forall m | m in msgs
      ensures m.recv <= MergeOf(msgs).recv && m.reg.ts <= top.ts
    {
      var i :| 0 <= i < |msgs| && msgs[i] == m;
      assert regs[i] == m.reg && regs[i] in regs;
    }
    assert regs[0] in regs && regs[0] == msgs[0].reg;
    assert msgs[0] in msgs && top in regs;
    var i :| 0 <= i < |regs| && regs[i] == top;
    assert msgs[i] in msgs && msgs[i].reg == top;
  }

  /** It is the state that an Install step of the register system puts into the server. */
  lemma MergeIsInstalled(order: seq<Process>, step: nat, sent: map<(Process, nat), StateMsg>)
    requires RegisterSystem.AllSent(order, step, sent)
    ensures var msgs := seq(|order|, i requires 0 <= i < |order| => sent[(order[i], step)]);
            MergeOf(msgs) == Merged(RegisterSystem.Newest(RegisterSystem.SentRegs(order, step, sent), UNSET),
                                    RegisterSystem.SentRecv(order, step, sent))
  {
    var msgs := seq(|order|, i requires 0 <= i < |order| => sent[(order[i], step)]);
    assert RegsOf(msgs) == RegisterSystem.SentRegs(order, step, sent);
    forall u
      ensures u in RecvOf(msgs) <==> u in RegisterSystem.SentRecv(order, step, sent)
    {
      if u in RecvOf(msgs) {
        var i :| 0 <= i < |msgs| && u in msgs[i].recv;
        assert order[i] in order && u in sent[(order[i], step)].recv;
      }
      if u in RegisterSystem.SentRecv(order, step, sent) {
        var q :| q in order && u in sent[(q, step)].recv;
        var i :| 0 <= i < |order| && order[i] == q;
        assert u in msgs[i].recv;
      }
    }
  }

  /** stateUpdateQuorumType: the running merge for one associated view. */
  class StateUpdateQuorum {
    const quorumSize: nat
    var reg: Register
    var recv: set<Update>
    var counter: nat
    var result: Option<Merged>       // what was put on resultChan
    ghost var log: seq<StateMsg>     // the messages merged so far

    /** The merge is that of all messages; the published copy that of the first quorum of them. */
    ghost predicate Valid()
      reads this
    {
      && Merged(reg, recv) == MergeOf(log) && counter == |log| && quorumSize > 0
      && result == if |log| < quorumSize then None else Some(MergeOf(log[..quorumSize]))
    }

    constructor (quorumSize: nat)
      requires quorumSize > 0
      ensures Valid() && log == [] && this.quorumSize == quorumSize
    {
      this.quorumSize := quorumSize;
      reg, recv, counter, result, log := UNSET, {}, 0, None, [];
    }

    method Update(msg: StateMsg)
      requires Valid()
      modifies this
      ensures Valid() && log == old(log) + [msg]
    {
      ghost var before := log;
      counter := counter + 1;
      MergeStep(before, msg);
      recv := AddAll(recv, msg.recv);
      if reg.ts < msg.reg.ts {
        reg := msg.reg;
      }
      log := log + [msg];
      if counter == quorumSize {
        assert log[..quorumSize] == log;
        result := Some(Merged(reg, recv));
      } else if counter > quorumSize {
        assert log[..quorumSize] == before[..quorumSize];
      }
    }
  }

  lemma MergeStep(msgs: seq<StateMsg>, msg: StateMsg)
    ensures MergeOf(msgs + [msg]) ==
            Merged(RegisterSystem.ApplyWrite(MergeOf(msgs).reg, msg.reg), MergeOf(msgs).recv + msg.recv)
  {
    var all := msgs + [msg];
    assert RegsOf(all) == RegsOf(msgs) + [msg.reg];
    RegisterSystem.NewestAppend(RegsOf(msgs), msg.reg, UNSET);
    forall u
      ensures u in RecvOf(all) <==> u in RecvOf(msgs) || u in msg.recv
    {
      if u in RecvOf(msgs) {
        var i :| 0 <= i < |msgs| && u in msgs[i].recv;
        assert u in all[i].recv;
      }
      if u in msg.recv { assert u in all[|msgs|].recv; }
      if u in RecvOf(all) {
        var i :| 0 <= i < |all| && u in all[i].recv;
        if i < |msgs| { assert u in msgs[i].recv; }
      }
    }
  }

  method AddAll(a: set<Update>, b: set<Update>) returns (r: set<Update>)
    ensures r == a + b
  {
    r := a;
    var rest := b;
    while rest != {}
      invariant rest <= b && r == a + (b - rest)
      decreases |rest|
    {
      var u :| u in rest;
      r := r + {u};
      rest := rest - {u};
    }
  }

  method RemoveAll(a: set<Update>, b: set<Update>) returns (r: set<Update>)
    ensures r == a - b
  {
    r := a;
    var rest := b;
    while rest != {}
      invariant rest <= b && r == a - (b - rest)
      decreases |rest|
    {
      var u :| u in rest;
      r := r - {u};
      rest := rest - {u};
    }
  }

  method Filter(views: ViewSeq, v: View) returns (newSeq: ViewSeq)
    ensures newSeq == MoreUpdated(views, v)
  {
    newSeq := [];
    assert views[0..] == views;
    for i := 0 to |views|
      invariant newSeq + MoreUpdated(views[i..], v) == MoreUpdated(views, v)
    {
      var more := MoreUpdatedThan(views[i], v);
      ghost var rest := MoreUpdated(views[i + 1..], v);
      MoreUpdatedAt(views, i, v);
      if more {
        assert newSeq + ([views[i]] + rest) == newSeq + [views[i]] + rest;
        newSeq := newSeq + [views[i]];
      } else {
        assert [] + rest == rest;
      }
    }
    assert views[|views|..] == [];
  }

  // ----- the register handlers -----

  function OnRead(n: Node, clientView: View): Reply {
    if n.status != Running then Blocks
    else if clientView != n.view then Old(n.view)
    else if n.locked then Blocks else Content(n.reg)
  }

  /** A write request is applied exactly where a read request would be answered. */
  function OnWrite(n: Node, clientView: View, msg: Register): (Node, Reply) {
    if !OnRead(n, clientView).Content? then (n, OnRead(n, clientView))
    else (n.(reg := RegisterSystem.ApplyWrite(n.reg, msg)), Ack)
  }

  class StoreServer {
    const self: Process
    var view: View
    var reg: Register
    var recv: set<Update>
    var locked: bool
    var once: bool
    var checked: bool
    var status: Status
    var generators: seq<(View, ViewSeq)>   // view generators started so far
    var statesSent: seq<(View, Merged)>    // (associated view, state) broadcast so far

    function Abstract(): Node
      reads this
    {
      Node(view, reg, recv, locked, once, checked, status)
    }

    constructor (self: Process, initialView: View)
      ensures Abstract() == Fresh(self, initialView) && this.self == self && generators == [] && statesSent == []
    {
      this.self, view, reg, recv := self, initialView, RegisterSystem.INITIAL, {};
      locked, once, checked, status := self !in Members(initialView), false, false, Running;
      generators, statesSent := [], [];
    }

    // ----- the register -----

    method Read(clientView: View) returns (reply: Reply)
      ensures reply == OnRead(Abstract(), clientView)
    {
      if status != Running { return Blocks; }
      if clientView != view { return Old(view); }
      if locked { return Blocks; }
      return Content(reg);
    }

    method Write(clientView: View, msg: Register) returns (reply: Reply)
      modifies `reg
      ensures (Abstract(), reply) == OnWrite(old(Abstract()), clientView, msg)
      ensures reply.Ack? ==>
                reg.ts >= msg.ts && reg.ts >= old(reg).ts && (msg.ts <= old(reg).ts ==> reg == old(reg))
    {
      if status != Running { return Blocks; }
      if clientView != view { return Old(view); }
      if locked { return Blocks; }
      if msg.ts > reg.ts {
        reg := msg;
      }
      return Ack;
    }

    // ----- reconfiguration -----

    method Reconfig(associated: View, update: Update) returns (ok: bool)
      requires status == Running
      modifies `recv
      ensures (Abstract(), ok) == OnReconfig(old(Abstract()), associated, update)
      ensures ok ==> update in view || update in recv
    {
      if associated != view { return false; }
      if update in view { return true; }
      recv := recv + {update};
      return true;
    }

    /** hasUpdatesToCurrentView, the first critical section of startReconfiguration. */
    method CheckUpdates() returns (pending: bool)
      requires status == Running
      modifies `checked
      ensures Abstract() == Next(self, old(Abstract()), Check) && (pending <==> recv != {})
    {
      pending := |recv| != 0;
      if pending { checked := true; }
    }

    /** The second: hand the initial sequence to a generator. */
    method ProposeInitial()
      requires status == Running && checked
      modifies `checked, `generators
      ensures Abstract() == Next(self, old(Abstract()), Propose)
      ensures generators == old(generators) + [(view, Proposed(self, old(Abstract()), Propose))]
    {
      var ok := OnlyUpdatedViews(view, [view + recv]);
      assert ok by { assert forall v | v in [view + recv] :: view <= v; }
      generators := generators + [(view, [view + recv])];
      checked := false;
    }

    method InstallOthers(views: ViewSeq) returns (newSeq: ViewSeq)
      modifies `generators
      ensures newSeq == MoreUpdated(views, view)
      ensures generators == old(generators) + [(view, newSeq)]
    {
      newSeq := Filter(views, view);
      generators := generators + [(view, newSeq)];
    }

    method SyncState(install: View, merged: Merged)
      modifies `reg, `recv
      ensures reg == merged.reg && recv == old(recv) + merged.recv - install
    {
      recv := AddAll(recv, merged.recv);
      reg := merged.reg;
      recv := RemoveAll(recv, install);
    }

    /** What happens with the lock and the state message before anything is installed. */
    method LockAndSend(inst: InstallSeq, newer: bool)
      requires status == Running && (newer <==> view < inst.install)
      modifies `locked, `once, `status, `statesSent
      ensures Abstract() == Locking(self, old(Abstract()), inst)
      ensures statesSent == if self in Members(inst.associated) && status == Running
                            then old(statesSent) + [(inst.associated, Merged(reg, recv))] else old(statesSent)
    {
      if self in Members(inst.associated) {
        if newer && !once {
          if locked {
            status := Deadlocked;
            return;
          }
          locked := true;
          once := true;
        }
        statesSent := statesSent + [(inst.associated, Merged(reg, recv))];
      }
    }

    method GotInstallSeqQuorum(inst: InstallSeq, merged: Merged)
      requires status == Running
      modifies this
      ensures Abstract() == OnInstall(self, old(Abstract()), inst, merged).0
      ensures var going := OnInstall(self, old(Abstract()), inst, merged).1;
              generators == if going == [] then old(generators) else old(generators) + [(view, going)]
      ensures var sends := self in Members(inst.associated) && Locking(self, old(Abstract()), inst).status == Running;
              statesSent == if sends then old(statesSent) + [(inst.associated, Merged(old(reg), old(recv)))]
                            else old(statesSent)
    {
      var newer := MoreUpdatedThan(inst.install, view);
      LockAndSend(inst, newer);
      if status != Running { return; }
      if !newer {
        var more := GoOn(inst);
        return;
      }
      if self in Members(inst.install) {
        InstallView(inst, merged);
      } else {
        status := Leaving;
      }
    }

    /** Take over the merged state and the view, and unlock unless more views are ahead. */
    method InstallView(inst: InstallSeq, merged: Merged)
      requires status == Running
      modifies this
      ensures Abstract() == Finished(self, Synced(old(Abstract()), inst, merged), inst)
      ensures view == inst.install && statesSent == old(statesSent)
      ensures var going := MoreUpdated(inst.views, inst.install);
              generators == if going == [] then old(generators) else old(generators) + [(view, going)]
    {
      SyncState(inst.install, merged);
      view := inst.install;
      var more := GoOn(inst);
      if !more {
        if !locked {
          status := Crashed;
          return;
        }
        locked := false;
        if self in Members(inst.associated) { once := false; }
      }
    }

    /** Start a generator for the views of the sequence that are still ahead, if any. */
    method GoOn(inst: InstallSeq) returns (more: bool)
      modifies `generators
      ensures more <==> MoreUpdated(inst.views, view) != []
      ensures generators == if more then old(generators) + [(view, MoreUpdated(inst.views, view))] else old(generators)
    {
      more := HasViewMoreUpdatedThan(inst.views, view);
      if more {
        var x :| x in inst.views && view < x;
        assert x in MoreUpdated(inst.views, view);
        var s := InstallOthers(inst.views);
      } else if MoreUpdated(inst.views, view) != [] {
        assert MoreUpdated(inst.views, view)[0] in MoreUpdated(inst.views, view);
      }
    }
  }

  lemma {:induction false} MoreUpdatedAt(s: ViewSeq, i: nat, v: View)
    requires i < |s|
    ensures MoreUpdated(s[i..], v) == (if v < s[i] then [s[i]] else []) + MoreUpdated(s[i + 1..], v)
  {
    assert s[i..][0] == s[i] && s[i..][1..] == s[i + 1..];
  }
}
