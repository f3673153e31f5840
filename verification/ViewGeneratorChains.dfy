/**
 What every step of the view generator keeps: all sequences are duplicate-free chains, every
 last converged sequence lies inside the most updated view of its proposal, and the most updated
 view a worker proposes only grows.
 */
module ViewGeneratorChains {
  import opened Views
  import opened ViewSeqs
  import opened QuorumCounters
  import opened ViewGenerator

  /** Every view of `converged` lies inside the most updated view of `proposed`. */
  ghost predicate Inside(converged: ViewSeq, proposed: ViewSeq) {
    forall v | v in converged :: v <= MostUpdated(proposed)
  }

  ghost predicate MsgOk(msg: Msg) {
    Proper(msg.proposed) && Proper(msg.converged) && Inside(msg.converged, msg.proposed)
  }

  ghost predicate WorkerOk(w: Worker) {
    Proper(w.proposed) && Proper(w.converged) && Inside(w.converged, w.proposed)
  }

  // ----- one merge -----

  /** After a conflict: the union on top of a converged chain is a chain, with the union as its
      most updated view. */
  lemma ConflictMerge(w: Worker, msg: Msg)
    requires WorkerOk(w) && MsgOk(msg) && HasConflict(w.proposed, msg.proposed)
    ensures var (proposed, converged) := Merge(w, msg);
            && Proper(proposed) && Proper(converged) && Inside(converged, proposed)
            && MostUpdated(proposed) == MostUpdated(w.proposed) + MostUpdated(msg.proposed)
  {
    var converged := ConvergedAfterConflict(w.converged, msg.converged);
    var top := MostUpdated(w.proposed) + MostUpdated(msg.proposed);
    var proposed := Append(converged, [top]);
    assert forall v | v in converged :: v <= top;
    forall v, v' | v in proposed && v' in proposed
      ensures Comparable(v, v')
    {
      assert (v in converged || v == top) && (v' in converged || v' == top);
    }
    AppendDistinct(converged, [top]);
    MostUpdatedIsMaximum(proposed);
    assert top in proposed;
  }

  /** Without a conflict the union of the two chains is a chain. */
  lemma PlainMerge(w: Worker, msg: Msg)
    requires WorkerOk(w) && MsgOk(msg) && !HasConflict(w.proposed, msg.proposed)
    ensures var (proposed, converged) := Merge(w, msg);
            && Proper(proposed) && Inside(converged, proposed)
            && MostUpdated(w.proposed) <= MostUpdated(proposed)
            && MostUpdated(msg.proposed) <= MostUpdated(proposed)
  {
    var proposed := Append(w.proposed, msg.proposed);
    forall v, v' | v in proposed && v' in proposed
      ensures Comparable(v, v')
    {
      if v in w.proposed && v' !in w.proposed { assert !Conflict(v', v); }
      if v' in w.proposed && v !in w.proposed { assert !Conflict(v, v'); }
    }
    AppendDistinct(w.proposed, msg.proposed);
    MostUpdatedMonotone(w.proposed, proposed);
    MostUpdatedMonotone(msg.proposed, proposed);
  }

  lemma MergeOk(w: Worker, msg: Msg)
    requires WorkerOk(w) && MsgOk(msg)
    ensures var (proposed, converged) := Merge(w, msg);
            && Proper(proposed) && Proper(converged) && Inside(converged, proposed)
            && MostUpdated(w.proposed) <= MostUpdated(proposed)
            && MostUpdated(msg.proposed) <= MostUpdated(proposed)
  {
    if HasConflict(w.proposed, msg.proposed) { ConflictMerge(w, msg); } else { PlainMerge(w, msg); }
  }

  lemma SelfInside(a: ViewSeq, b: ViewSeq)
    requires ChainSeq(a) && MostUpdated(a) <= MostUpdated(b)
    ensures Inside(a, b)
  {
    MostUpdatedIsMaximum(a);
  }

  // ----- one step of a worker -----

  ghost predicate OutOk(w: Worker, o: Out) {
    && WorkerOk(o.worker)
    && MostUpdated(w.proposed) <= MostUpdated(o.worker.proposed)
    && (forall c | c in o.convs :: Proper(c))
    && |o.sends| <= 1
    && (o.sends != [] ==> MsgOk(o.sends[0]) && o.sends[0].proposed == o.worker.proposed)
    && (o.sends == [] ==> o.worker.proposed == w.proposed)
  }

  lemma CountOk(w: Worker, msg: Msg, quorumSize: nat)
    requires WorkerOk(w) && Proper(msg.proposed) && MostUpdated(msg.proposed) <= MostUpdated(w.proposed)
    ensures OutOk(w, CountViewSeq(w, msg, quorumSize))
    ensures CountViewSeq(w, msg, quorumSize).worker.proposed == w.proposed
    ensures CountViewSeq(w, msg, quorumSize).sends == []
  {
    SelfInside(msg.proposed, w.proposed);
  }

  lemma OnMsgOk(self: Process, w: Worker, msg: Msg, quorumSize: nat)
    requires WorkerOk(w) && MsgOk(msg)
    ensures OutOk(w, OnMsg(self, w, msg, quorumSize))
  {
    if HasChanges(w.proposed, msg.proposed) {
      MergeOk(w, msg);
      var (proposed, converged) := Merge(w, msg);
      var own := Msg(self, proposed, converged);
      var merged := Worker(proposed, converged, w.msgs, w.convs);
      CountOk(merged, own, quorumSize);
      var first := CountViewSeq(w.(converged := converged), own, quorumSize);
      assert first.worker.(proposed := proposed) == CountViewSeq(merged, own, quorumSize).worker;
      CountOk(first.worker.(proposed := proposed), msg, quorumSize);
    } else {
      MostUpdatedMonotone(msg.proposed, w.proposed);
      CountOk(w, msg, quorumSize);
    }
  }

  lemma OnBeginOk(self: Process, initial: ViewSeq, quorumSize: nat)
    requires Proper(initial)
    ensures OutOk(IDLE, OnBegin(self, initial, quorumSize))
  {
    if initial != [] {
      var own := Msg(self, initial, []);
      var started := IDLE.(proposed := initial);
      CountOk(started, own, quorumSize);
      assert CountViewSeq(IDLE, own, quorumSize).worker.(proposed := initial)
             == CountViewSeq(started, own, quorumSize).worker;
    }
  }

  // ----- the system -----

  /** A proposal is well formed and inside what its sender proposes now. */
  ghost predicate SentOk(s: State, i: nat)
    requires i < |s.sent|
  {
    var msg := s.sent[i];
    && MsgOk(msg) && msg.sender in s.workers
    && MostUpdated(msg.proposed) <= MostUpdated(s.workers[msg.sender].proposed)
  }

  /** The most updated view a worker proposes only grows. */
  ghost predicate GrowsOk(s: State, i: nat, j: nat)
    requires i < |s.sent| && j < |s.sent|
  {
    i <= j && s.sent[i].sender == s.sent[j].sender ==>
      MostUpdated(s.sent[i].proposed) <= MostUpdated(s.sent[j].proposed)
  }

  ghost predicate Inv(m: set<Process>, s: State) {
    && (forall p {:trigger s.workers[p]} | p in s.workers :: p in m && WorkerOk(s.workers[p]))
    && (forall i: nat {:trigger SentOk(s, i)} | i < |s.sent| :: SentOk(s, i))
    && (forall i: nat, j: nat {:trigger GrowsOk(s, i, j)} | i < |s.sent| && j < |s.sent| :: GrowsOk(s, i, j))
    && (forall c {:trigger Proper(c)} | c in s.convs :: Proper(c))
    && (forall c {:trigger c in s.convs} | c in s.generated :: c in s.convs)
  }

  ghost predicate ProperBegin(e: Event) {
    e.Begin? ==> Proper(e.initial)
  }

  /** What worker p was before the event, a fresh one if it had not started. */
  function Before(s: State, p: Process): Worker {
    if p in s.workers then s.workers[p] else IDLE
  }

  function Output(m: set<Process>, s: State, e: Event): Out
    requires Enabled(m, s, e) && !e.DeliverConv?
  {
    if e.Begin? then OnBegin(e.p, e.initial, QuorumSize(|m|))
    else OnMsg(e.p, s.workers[e.p], s.sent[e.k], QuorumSize(|m|))
  }

  lemma OutputOk(m: set<Process>, s: State, e: Event)
    requires Inv(m, s) && Enabled(m, s, e) && !e.DeliverConv? && ProperBegin(e)
    ensures OutOk(Before(s, e.p), Output(m, s, e))
    ensures forall msg | msg in Output(m, s, e).sends :: msg.sender == e.p
  {
    if e.Begin? {
      OnBeginOk(e.p, e.initial, QuorumSize(|m|));
    } else {
      assert SentOk(s, e.k);
      OnMsgOk(e.p, s.workers[e.p], s.sent[e.k], QuorumSize(|m|));
    }
  }

  lemma SentKept(m: set<Process>, s: State, e: Event, i: nat)
    requires Inv(m, s) && Enabled(m, s, e) && ProperBegin(e) && i < |Next(m, s, e).sent|
    ensures SentOk(Next(m, s, e), i)
  {
    if i < |s.sent| {
      assert SentOk(s, i);
      assert Next(m, s, e).sent[i] == s.sent[i];
    }
    if !e.DeliverConv? { OutputOk(m, s, e); }
  }

  lemma GrowsKept(m: set<Process>, s: State, e: Event, i: nat, j: nat)
    requires Inv(m, s) && Enabled(m, s, e) && ProperBegin(e)
    requires i < |Next(m, s, e).sent| && j < |Next(m, s, e).sent|
    ensures GrowsOk(Next(m, s, e), i, j)
  {
    var s' := Next(m, s, e);
    if i <= j {
      if j < |s.sent| {
        assert GrowsOk(s, i, j) && s'.sent[i] == s.sent[i] && s'.sent[j] == s.sent[j];
      } else {
        OutputOk(m, s, e);
        if i < |s.sent| { assert SentOk(s, i) && s'.sent[i] == s.sent[i]; }
      }
    }
  }

  lemma ConvsKept(m: set<Process>, s: State, e: Event)
    requires Inv(m, s) && Enabled(m, s, e) && ProperBegin(e)
    ensures var s' := Next(m, s, e);
            && (forall c | c in s'.convs :: Proper(c))
            && (forall c | c in s'.generated :: c in s'.convs)
  {
    if !e.DeliverConv? { OutputOk(m, s, e); }
  }

  lemma StepInv(m: set<Process>, s: State, e: Event)
    requires Inv(m, s) && Enabled(m, s, e) && ProperBegin(e)
    ensures Inv(m, Next(m, s, e))
  {
    var s' := Next(m, s, e);
    if !e.DeliverConv? { OutputOk(m, s, e); }
    forall p | p in s'.workers ensures p in m && WorkerOk(s'.workers[p]) {
      if p in s.workers { assert WorkerOk(s.workers[p]); }
    }
    forall i: nat | i < |s'.sent| ensures SentOk(s', i) { SentKept(m, s, e, i); }
    forall i: nat, j: nat | i < |s'.sent| && j < |s'.sent| ensures GrowsOk(s', i, j) { GrowsKept(m, s, e, i, j); }
    ConvsKept(m, s, e);
  }

  lemma {:induction false} RunInv(m: set<Process>, tr: seq<State>, es: seq<Event>, i: nat)
    requires Run(m, tr, es) && ProperStart(es) && i < |tr|
    ensures Inv(m, tr[i])
  {
    if i > 0 {
      RunInv(m, tr, es, i - 1);
      StepInv(m, tr[i - 1], es[i - 1]);
    }
  }

  /** In every reachable state every proposed, converged and generated sequence is a
      duplicate-free chain, and every last converged sequence, of a worker or of a message, lies
      inside the most updated view of the proposal that goes with it. */
  lemma SequencesAreChains(m: set<Process>, tr: seq<State>, es: seq<Event>, i: nat)
    requires Run(m, tr, es) && ProperStart(es) && i < |tr|
    ensures forall p | p in tr[i].workers ::
              var w := tr[i].workers[p];
              Proper(w.proposed) && Proper(w.converged) && forall v | v in w.converged :: v <= MostUpdated(w.proposed)
    ensures forall x | x in tr[i].sent ::
              Proper(x.proposed) && Proper(x.converged) && forall v | v in x.converged :: v <= MostUpdated(x.proposed)
    ensures forall c | c in tr[i].convs :: Proper(c)
    ensures forall c | c in tr[i].generated :: Proper(c)
  {
    RunInv(m, tr, es, i);
    forall x | x in tr[i].sent
      ensures MsgOk(x)
    {
      var j :| 0 <= j < |tr[i].sent| && tr[i].sent[j] == x;
      assert SentOk(tr[i], j);
    }
  }

  // ----- last converged sequences -----

  lemma SurvivorContainsBoth(own: ViewSeq, received: ViewSeq)
    ensures var c, a, b := ConvergedAfterConflict(own, received), MostUpdated(own), MostUpdated(received);
            && (Comparable(a, b) ==> a <= MostUpdated(c) && b <= MostUpdated(c))
            && (a < b || Conflict(a, b) ==> c == received) && (b <= a ==> c == own)
  {
  }

  /** A Deliver that meets a conflict, in any run: the worker goes on, and tells the others, with the
      more updated of its own last converged sequence and the received one. If their tops are
      comparable its top contains both, and the new proposal contains all its views. */
  lemma ConflictKeepsMoreUpdated(m: set<Process>, tr: seq<State>, es: seq<Event>, i: nat)
    requires Run(m, tr, es) && i < |es| && es[i].Deliver?
    requires HasConflict(tr[i].workers[es[i].p].proposed, tr[i].sent[es[i].k].proposed)
    ensures |tr[i + 1].sent| == |tr[i].sent| + 1
    ensures var own, received := tr[i].workers[es[i].p].converged, tr[i].sent[es[i].k].converged;
            var a, b, msg := MostUpdated(own), MostUpdated(received), tr[i + 1].sent[|tr[i].sent|];
            && msg.sender == es[i].p && (forall v | v in msg.converged :: v in msg.proposed)
            && (Comparable(a, b) ==> a <= MostUpdated(msg.converged) && b <= MostUpdated(msg.converged))
            && (a < b || Conflict(a, b) ==> msg.converged == received) && (b <= a ==> msg.converged == own)
    ensures var worker, msg := tr[i + 1].workers[es[i].p], tr[i + 1].sent[|tr[i].sent|];
            && worker.proposed == msg.proposed
            && (|tr[i + 1].convs| == |tr[i].convs| ==> worker.converged == msg.converged)
  {
    var w, msg := tr[i].workers[es[i].p], tr[i].sent[es[i].k];
    SurvivorContainsBoth(w.converged, msg.converged);
    assert HasChanges(w.proposed, msg.proposed);
  }

  /** A worker that broadcasts SeqConvs holds the last one as its last converged sequence. */
  lemma BroadcastIsHeld(m: set<Process>, tr: seq<State>, es: seq<Event>, i: nat)
    requires Run(m, tr, es) && i < |es| && |tr[i].convs| < |tr[i + 1].convs|
    ensures !es[i].DeliverConv? && es[i].p in tr[i + 1].workers
    ensures tr[i + 1].workers[es[i].p].converged == tr[i + 1].convs[|tr[i + 1].convs| - 1]
  {
    var s, e := tr[i], es[i];
    if !e.DeliverConv? {
      var o := Output(m, s, e);
      assert tr[i + 1].convs == s.convs + o.convs;
      OutputHolds(m, s, e);
    }
  }

  lemma OutputHolds(m: set<Process>, s: State, e: Event)
    requires Enabled(m, s, e) && !e.DeliverConv?
    ensures var o := Output(m, s, e); o.convs != [] ==> o.worker.converged == o.convs[|o.convs| - 1]
  {
  }
}
