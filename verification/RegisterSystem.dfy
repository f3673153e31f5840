/**
 The replicated register of pkg/client and pkg/server as one transition system: two-phase
 client operations, the register handlers, Reconfig requests, and the state transfer that
 moves a server from one installed view to the next.

 The installed views form a chain w[0] < w[1] < ..., with one install sequence per step, and
 a member of w[i] acts on step i only while its current view is w[i]. Requests may be lost
 or delayed for ever, and a process that crashes simply takes no further step.
 */
module RegisterSystem {
  import opened Views

  /** An installed view as the source stores it: its entries and the cache of its members. */
  datatype Installed = Installed(entries: View, members: set<Process>)

  datatype Value = Nil | Data(text: string)

  datatype Register = Register(ts: int, value: Value)

  /** A server: the index of its current view, its register and its pending updates. */
  datatype Server = Server(cur: nat, reg: Register, recv: set<Update>)

  /** The state a member of w[i] broadcasts when it leaves w[i]; `at` is when it did so. */
  datatype StateMsg = StateMsg(reg: Register, recv: set<Update>, at: nat)

  /** History of one install: the senders whose states were merged, and when. */
  datatype Origin = Origin(from: set<Process>, at: nat)

  datatype Kind = Read | Write(value: Value)

  datatype Status =
    | Reading(view: nat, answers: map<Process, Register>)
    | Writing(view: nat, acks: set<Process>)
    | Done(view: nat, end: nat, voters: set<Process>)   // the quorum that let it return
    | Failed

  /** What an operation writes and, for a Read, returns; chosen when its first phase ends. */
  datatype Choice = Undecided | Chosen(reg: Register)

  datatype Op = Op(client: nat, kind: Kind, start: nat, choice: Choice, status: Status)

  datatype State = State(
    clock: nat,
    servers: map<Process, Server>,
    ops: seq<Op>,
    wire: set<(nat, nat)>,                     // write requests (operation, view) ever broadcast
    sent: map<(Process, nat), StateMsg>,
    origin: map<(Process, nat), Origin>,
    acked: set<(Process, nat, Update)>)        // Reconfig requests acknowledged

  datatype Event =
    | Begin(client: nat, kind: Kind, view: nat)
    | ServeRead(op: nat, p: Process)
    | FinishRead(op: nat, order: seq<Process>)
    | ServeWrite(op: nat, view: nat, p: Process)
    | FinishWrite(op: nat)
    | ChangeView(op: nat, view: nat)
    | Fail(op: nat)
    | Reconfig(p: Process, update: Update)
    | SendState(p: Process)
    | Install(p: Process, step: nat, order: seq<Process>)

  const INITIAL := Register(0, Nil)

  // ----- the pieces of the source the steps are made of -----

  /** Keep the first register with the highest timestamp above `best`. */
  function Newest(regs: seq<Register>, best: Register): (r: Register)
    ensures r == best || r in regs
    ensures best.ts <= r.ts
    ensures forall x | x in regs :: x.ts <= r.ts
  {
    if regs == [] then best
    else
      assert forall x | x in regs :: x == regs[0] || x in regs[1..];
      Newest(regs[1..], if regs[0].ts > best.ts then regs[0] else best)
  }

  /** Among equal highest timestamps the first answer wins. */
  lemma {:induction false} NewestIsFirst(regs: seq<Register>, best: Register)
    ensures Newest(regs, best) != best ==> Newest(regs, best).ts > best.ts
    ensures Newest(regs, best) != best ==>
              exists i :: 0 <= i < |regs| && regs[i] == Newest(regs, best)
                          && forall j | 0 <= j < i :: regs[j].ts < regs[i].ts
  {
    if regs != [] {
      var best' := if regs[0].ts > best.ts then regs[0] else best;
      var r := Newest(regs, best);
      NewestIsFirst(regs[1..], best');
      if r == best' {
        assert r != best ==> regs[0] == r;
      } else {
        var i :| 0 <= i < |regs[1..]| && regs[1..][i] == r && forall j | 0 <= j < i :: regs[1..][j].ts < r.ts;
        assert regs[i + 1] == r;
        forall j | 0 <= j < i + 1
          ensures regs[j].ts < r.ts
        {
          if j > 0 { assert regs[j] == regs[1..][j - 1]; }
        }
      }
    }
  }

  /** The register rule for a write request: only a higher timestamp replaces the content. */
  function ApplyWrite(reg: Register, msg: Register): Register {
    if msg.ts > reg.ts then msg else reg
  }

  lemma {:induction false} NewestAppend(regs: seq<Register>, r: Register, best: Register)
    ensures Newest(regs + [r], best) == ApplyWrite(Newest(regs, best), r)
  {
    if regs == [] {
      var one := [r];
      assert regs + [r] == one && one[1..] == [];
      assert Newest(one, best) == Newest(one[1..], if r.ts > best.ts then r else best);
    } else {
      assert (regs + [r])[1..] == regs[1..] + [r];
      NewestAppend(regs[1..], r, if regs[0].ts > best.ts then regs[0] else best);
    }
  }

  function Answered(order: seq<Process>, answers: map<Process, Register>): (regs: seq<Register>)
    requires forall p | p in order :: p in answers
  {
    seq(|order|, i requires 0 <= i < |order| => answers[order[i]])
  }

  predicate AllSent(order: seq<Process>, step: nat, sent: map<(Process, nat), StateMsg>) {
    forall q | q in order :: (q, step) in sent
  }

  function SentRegs(order: seq<Process>, step: nat, sent: map<(Process, nat), StateMsg>): seq<Register>
    requires AllSent(order, step, sent)
  {
    seq(|order|, i requires 0 <= i < |order| => sent[(order[i], step)].reg)
  }

  function SentRecv(order: seq<Process>, step: nat, sent: map<(Process, nat), StateMsg>): set<Update>
    requires AllSent(order, step, sent)
  {
    set q, u | q in order && u in sent[(q, step)].recv :: u
  }

  // ----- states and steps -----

  ghost predicate Chain(w: seq<Installed>) {
    && |w| > 0
    && forall i, j :: 0 <= i < j < |w| ==> w[i].entries < w[j].entries
  }

  /** Every cache is exact (established by Views.ViewBuilder for every view of the source). */
  ghost predicate CachesExact(w: seq<Installed>) {
    w == [] || (w[|w| - 1].members == Members(w[|w| - 1].entries) && CachesExact(w[..|w| - 1]))
  }

  /** Servers in w[0] start there; every other process starts outside its current view. */
  ghost predicate Init(w: seq<Installed>, s: State) {
    && s.clock == 0 && s.ops == [] && s.wire == {} && s.sent == map[] && s.origin == map[] && s.acked == {}
    && forall p | p in s.servers ::
         var sv := s.servers[p];
         sv.cur < |w| && sv.reg == INITIAL && sv.recv == {} && (p in w[sv.cur].members ==> sv.cur == 0)
  }

  /** A server that has sent its state holds its view lock until it has installed the next view. */
  predicate Moving(s: State, p: Process)
    requires p in s.servers
  {
    (p, s.servers[p].cur) in s.sent
  }

  predicate Serves(w: seq<Installed>, s: State, p: Process, view: nat) {
    view < |w| && p in w[view].members && p in s.servers && s.servers[p].cur == view && !Moving(s, p)
  }

  predicate Active(o: Op) {
    o.status.Reading? || o.status.Writing?
  }

  predicate InView(o: Op, view: nat) {
    Active(o) && o.status.view == view
  }

  predicate Enabled(w: seq<Installed>, s: State, e: Event) {
    match e
    case Begin(client, kind, view) =>
      // the client mutex and its sticky error: every earlier operation returned without error
      view < |w| && forall k | 0 <= k < |s.ops| && s.ops[k].client == client :: s.ops[k].status.Done?
    case ServeRead(k, p) =>
      && k < |s.ops| && s.ops[k].status.Reading? && p !in s.ops[k].status.answers
      && Serves(w, s, p, s.ops[k].status.view)
    case FinishRead(k, order) =>
      && k < |s.ops| && s.ops[k].status.Reading? && s.ops[k].status.view < |w|
      && Distinct(order) && (forall p | p in order :: p in s.ops[k].status.answers)
      && |order| == QuorumSize(|w[s.ops[k].status.view].members|)
    case ServeWrite(k, view, p) =>
      k < |s.ops| && (k, view) in s.wire && s.ops[k].choice.Chosen? && Serves(w, s, p, view)
    case FinishWrite(k) =>
      && k < |s.ops| && s.ops[k].status.Writing? && s.ops[k].status.view < |w|
      && |s.ops[k].status.acks| >= QuorumSize(|w[s.ops[k].status.view].members|)
    case ChangeView(k, view) =>
      k < |s.ops| && Active(s.ops[k]) && s.ops[k].status.view < view < |w|
    case Fail(k) =>
      k < |s.ops| && Active(s.ops[k])
    case Reconfig(p, update) =>
      p in s.servers && s.servers[p].cur < |w| && !Moving(s, p)
    case SendState(p) =>
      p in s.servers && s.servers[p].cur + 1 < |w| && p in w[s.servers[p].cur].members && !Moving(s, p)
    case Install(p, i, order) =>
      && p in s.servers && i + 1 < |w| && p in w[i + 1].members
      && Distinct(order) && AllSent(order, i, s.sent) && |order| == QuorumSize(|w[i].members|)
      && (if p in w[i].members then s.servers[p].cur == i && Moving(s, p) else s.servers[p].cur <= i)
  }

  function NextServers(w: seq<Installed>, s: State, e: Event): map<Process, Server>
    requires Enabled(w, s, e)
  {
    match e
    case ServeWrite(k, view, p) =>
      var sv := s.servers[p];
      s.servers[p := sv.(reg := ApplyWrite(sv.reg, s.ops[k].choice.reg))]
    case Reconfig(p, update) =>
      var sv := s.servers[p];
      if update in w[sv.cur].entries then s.servers else s.servers[p := sv.(recv := sv.recv + {update})]
    case Install(p, i, order) =>
      var sv := s.servers[p];
      s.servers[p := Server(i + 1,
                            Newest(SentRegs(order, i, s.sent), Register(-1, Nil)),
                            sv.recv + SentRecv(order, i, s.sent) - w[i + 1].entries)]
    case _ => s.servers
  }

  /** What an operation does when its first phase ends with `final` (client.go): a Write always
      goes on to write the next timestamp, a Read writes `final` back if the answers differ. */
  function SecondPhase(kind: Kind, final: Register, differ: bool): Option<Register> {
    match kind
    case Write(value) => Some(Register(final.ts + 1, value))
    case Read => if differ then Some(final) else None
  }

  function AfterRead(o: Op, order: seq<Process>, now: nat): Op
    requires o.status.Reading? && forall p | p in order :: p in o.status.answers
  {
    var regs := Answered(order, o.status.answers);
    var final := Newest(regs, INITIAL);
    match SecondPhase(o.kind, final, exists x :: x in regs && x.ts != final.ts)
    case Some(msg) => o.(choice := Chosen(msg), status := Writing(o.status.view, {}))
    case None => o.(choice := Chosen(final), status := Done(o.status.view, now, AsSet(order)))
  }

  function NextOps(w: seq<Installed>, s: State, e: Event): seq<Op>
    requires Enabled(w, s, e)
  {
    match e
    case Begin(client, kind, view) =>
      s.ops + [Op(client, kind, s.clock, Undecided, Reading(view, map[]))]
    case ServeRead(k, p) =>
      var st := s.ops[k].status;
      s.ops[k := s.ops[k].(status := Reading(st.view, st.answers[p := s.servers[p].reg]))]
    case FinishRead(k, order) =>
      s.ops[k := AfterRead(s.ops[k], order, s.clock)]
    case ServeWrite(k, view, p) =>
      var st := s.ops[k].status;
      if st.Writing? && st.view == view
      then s.ops[k := s.ops[k].(status := Writing(view, st.acks + {p}))] else s.ops
    case FinishWrite(k) =>
      s.ops[k := s.ops[k].(status := Done(s.ops[k].status.view, s.clock, s.ops[k].status.acks))]
    case ChangeView(k, view) =>
      var restarted := if s.ops[k].status.Reading? then Reading(view, map[]) else Writing(view, {});
      s.ops[k := s.ops[k].(status := restarted)]
    case Fail(k) =>
      s.ops[k := s.ops[k].(status := Failed)]
    case _ => s.ops
  }

  function NextWire(w: seq<Installed>, s: State, e: Event): set<(nat, nat)>
    requires Enabled(w, s, e)
  {
    match e
    case FinishRead(k, order) =>
      if AfterRead(s.ops[k], order, s.clock).status.Writing? then s.wire + {(k, s.ops[k].status.view)} else s.wire
    case ChangeView(k, view) =>
      if s.ops[k].status.Writing? then s.wire + {(k, view)} else s.wire
    case _ => s.wire
  }

  function Next(w: seq<Installed>, s: State, e: Event): State
    requires Enabled(w, s, e)
  {
    State(
      s.clock + 1,
      NextServers(w, s, e),
      NextOps(w, s, e),
      NextWire(w, s, e),
      if e.SendState?
      then s.sent[(e.p, s.servers[e.p].cur) := StateMsg(s.servers[e.p].reg, s.servers[e.p].recv, s.clock)]
      else s.sent,
      if e.Install? then s.origin[(e.p, e.step + 1) := Origin(AsSet(e.order), s.clock)] else s.origin,
      if e.Reconfig? then s.acked + {(e.p, s.servers[e.p].cur, e.update)} else s.acked)
  }

  /** A run: its states and the events between them. */
  ghost predicate Run(w: seq<Installed>, tr: seq<State>, es: seq<Event>) {
    && Chain(w) && CachesExact(w)
    && |tr| == |es| + 1
    && Init(w, tr[0])
    && forall i | 0 <= i < |es| :: Enabled(w, tr[i], es[i]) && tr[i + 1] == Next(w, tr[i], es[i])
  }
}
