/**
 The consensus-free view generator (pkg/server/viewgenerator.go) for one associated view: each
 member runs a worker that proposes a view sequence, merges the proposals it receives, resolves
 conflicts by union and detects convergence by counting equal messages.
 */
module ViewGenerator {
  import opened Views
  import opened ViewSeqs
  import opened QuorumCounters

  /** A worker: its last proposed and last converged sequence and its two counters. */
  datatype Worker = Worker(
    proposed: ViewSeq, converged: ViewSeq, msgs: seq<Tally<Msg>>, convs: seq<Tally<ViewSeq>>)

  /** What a worker does on one input: its next state, proposals and SeqConvs to broadcast. */
  datatype Out = Out(worker: Worker, sends: seq<Msg>, convs: seq<ViewSeq>)

  /** countViewSeq: at the quorum-th equal message its sequence becomes the last converged one. */
  function CountViewSeq(w: Worker, msg: Msg, quorumSize: nat): Out {
    var (msgs, hit) := CountMsg(w.msgs, msg, quorumSize);
    if hit
    then Out(w.(msgs := msgs, converged := msg.proposed), [], [msg.proposed])
    else Out(w.(msgs := msgs), [], [])
  }

  // ----- merging -----

  predicate HasChanges(last: ViewSeq, received: ViewSeq) {
    exists v :: v in received && v !in last
  }

  predicate HasConflict(last: ViewSeq, received: ViewSeq) {
    exists v, v' :: v in received && v !in last && v' in last && Conflict(v, v')
  }

  /** The last converged sequence a worker goes on with after a conflict. */
  function ConvergedAfterConflict(own: ViewSeq, received: ViewSeq): ViewSeq {
    if !(MostUpdated(received) <= MostUpdated(own)) then received else own
  }

  /** The next proposal and the last converged sequence sent with it. */
  function Merge(w: Worker, msg: Msg): (ViewSeq, ViewSeq) {
    if HasConflict(w.proposed, msg.proposed) then
      var converged := ConvergedAfterConflict(w.converged, msg.converged);
      (Append(converged, [MostUpdated(w.proposed) + MostUpdated(msg.proposed)]), converged)
    else
      (Append(w.proposed, msg.proposed), w.converged)
  }

  /** A received proposal: propose the merge if it brings something new, counting the own message
      first, then count the received one. */
  function OnMsg(self: Process, w: Worker, msg: Msg, quorumSize: nat): Out {
    if HasChanges(w.proposed, msg.proposed) then
      var (proposed, converged) := Merge(w, msg);
      var own := Msg(self, proposed, converged);
      var first := CountViewSeq(w.(converged := converged), own, quorumSize);
      var second := CountViewSeq(first.worker.(proposed := proposed), msg, quorumSize);
      Out(second.worker, [own], first.convs + second.convs)
    else
      CountViewSeq(w, msg, quorumSize)
  }

  const IDLE := Worker([], [], [], [])

  /** A worker that starts with a non-empty sequence proposes it. */
  function OnBegin(self: Process, initial: ViewSeq, quorumSize: nat): Out {
    if initial == [] then Out(IDLE, [], [])
    else
      var own := Msg(self, initial, []);
      var o := CountViewSeq(IDLE, own, quorumSize);
      Out(o.worker.(proposed := initial), [own], o.convs)
  }

  // ----- the system; m is the member set of the associated view -----

  datatype State = State(
    workers: map<Process, Worker>,
    sent: seq<Msg>,                  // every proposal ever broadcast
    log: map<Process, seq<nat>>,     // which proposals each worker has counted, in order
    convs: seq<ViewSeq>,             // every SeqConv ever broadcast
    gotConv: set<(Process, nat)>,
    generated: seq<ViewSeq>)         // every sequence handed to installation

  datatype Event =
    | Begin(p: Process, initial: ViewSeq)
    | Deliver(p: Process, k: nat)
    | DeliverConv(p: Process, k: nat)

  const EMPTY := State(map[], [], map[], [], {}, [])

  function Log(s: State, p: Process): seq<nat> {
    if p in s.log then s.log[p] else []
  }

  /** Each message reaches each worker at most once; a worker counts its own proposals itself. */
  predicate Enabled(m: set<Process>, s: State, e: Event) {
    match e
    case Begin(p, initial) => p in m && p !in s.workers
    case Deliver(p, k) => p in s.workers && k < |s.sent| && k !in Log(s, p)
    case DeliverConv(p, k) => p in s.workers && k < |s.convs| && (p, k) !in s.gotConv
  }

  /** Broadcast what worker p did; its own proposal, if any, is the next one sent. */
  function Publish(s: State, p: Process, o: Out, received: seq<nat>): State {
    s.(workers := s.workers[p := o.worker],
       sent := s.sent + o.sends,
       log := s.log[p := Log(s, p) + (if o.sends == [] then [] else [|s.sent|]) + received],
       convs := s.convs + o.convs)
  }

  function Next(m: set<Process>, s: State, e: Event): State
    requires Enabled(m, s, e)
  {
    var q := QuorumSize(|m|);
    match e
    case Begin(p, initial) => Publish(s, p, OnBegin(p, initial, q), [])
    case Deliver(p, k) => Publish(s, p, OnMsg(p, s.workers[p], s.sent[k], q), [k])
    case DeliverConv(p, k) =>
      var w := s.workers[p];
      var (convs, hit) := Count(w.convs, s.convs[k], q);
      s.(workers := s.workers[p := w.(convs := convs)],
         gotConv := s.gotConv + {(p, k)},
         generated := if hit then s.generated + [s.convs[k]] else s.generated)
  }

  ghost predicate Run(m: set<Process>, tr: seq<State>, es: seq<Event>) {
    && |tr| == |es| + 1
    && tr[0] == EMPTY
    && forall i | 0 <= i < |es| :: Enabled(m, tr[i], es[i]) && tr[i + 1] == Next(m, tr[i], es[i])
  }

  /** The initial sequences are duplicate-free chains. */
  ghost predicate ProperStart(es: seq<Event>) {
    forall i | 0 <= i < |es| && es[i].Begin? :: Proper(es[i].initial)
  }
}
