/**
 Converged sequences are comparable: if no worker sends the same proposal with the same last
 converged sequence twice, then the most updated views of any two converged sequences, and so of
 any two generated ones, are comparable. Each convergence needs a quorum of senders, two quorums
 share one, and the most updated view a worker proposes only grows.
 */
module ViewGeneratorConvergence {
  import opened Views
  import opened ViewSeqs
  import opened QuorumCounters
  import opened ViewGenerator
  import opened ViewGeneratorChains

  predicate InRange(log: seq<nat>, n: nat) {
    forall i | 0 <= i < |log| :: log[i] < n
  }

  /** The messages a worker has counted. */
  function LogMsgs(sent: seq<Msg>, log: seq<nat>): seq<Msg>
    requires InRange(log, |sent|)
  {
    seq(|log|, i requires 0 <= i < |log| => sent[log[i]])
  }

  lemma LogMsgsExtended(sent: seq<Msg>, more: seq<Msg>, log: seq<nat>)
    requires InRange(log, |sent|)
    ensures LogMsgs(sent + more, log) == LogMsgs(sent, log)
  {
  }

  lemma LogMsgsAppended(sent: seq<Msg>, log: seq<nat>, k: nat)
    requires InRange(log, |sent|) && k < |sent|
    ensures InRange(log + [k], |sent|)
    ensures LogMsgs(sent, log + [k]) == LogMsgs(sent, log) + [sent[k]]
  {
  }

  /** The worker's counter is what its log of counted messages makes it. */
  ghost predicate LogOk(s: State, p: Process)
    requires p in s.workers
  {
    && p in s.log && Distinct(s.log[p]) && InRange(s.log[p], |s.sent|)
    && s.workers[p].msgs == ReplayMsgs(LogMsgs(s.sent, s.log[p]))
  }

  lemma CountedLog(w: Worker, sent: seq<Msg>, log: seq<nat>, k: nat, quorumSize: nat)
    requires InRange(log, |sent|) && k < |sent| && w.msgs == ReplayMsgs(LogMsgs(sent, log))
    ensures InRange(log + [k], |sent|)
    ensures CountViewSeq(w, sent[k], quorumSize).worker.msgs == ReplayMsgs(LogMsgs(sent, log + [k]))
  {
    LogMsgsAppended(sent, log, k);
    ReplaysUnfold(LogMsgs(sent, log), sent[k]);
  }

  // ----- a convergence has a quorum of senders -----

  /** The workers that have proposed exactly the views of c. */
  function Support(sent: seq<Msg>, c: ViewSeq): set<Process> {
    set i | 0 <= i < |sent| && AsSet(sent[i].proposed) == AsSet(c) :: sent[i].sender
  }

  ghost predicate SentProper(sent: seq<Msg>) {
    forall x | x in sent :: ProperMsg(x)
  }

  lemma LogNoRepeats(sent: seq<Msg>, log: seq<nat>)
    requires InRange(log, |sent|) && Distinct(log) && NoRepeats(sent) && SentProper(sent)
    ensures NoRepeats(LogMsgs(sent, log)) && forall x | x in LogMsgs(sent, log) :: ProperMsg(x)
  {
    var msgs := LogMsgs(sent, log);
    forall i, j | 0 <= i < j < |msgs| && msgs[i].sender == msgs[j].sender
      ensures Content(msgs[i]) != Content(msgs[j])
    {
      assert log[i] != log[j];
      if log[i] < log[j] {
        assert Content(sent[log[i]]) != Content(sent[log[j]]);
      } else {
        assert Content(sent[log[j]]) != Content(sent[log[i]]);
      }
    }
  }

  lemma SendersSupport(sent: seq<Msg>, log: seq<nat>, msg: Msg)
    requires InRange(log, |sent|)
    ensures Senders(LogMsgs(sent, log), Content(msg)) <= Support(sent, msg.proposed)
  {
    var msgs := LogMsgs(sent, log);
    forall p | p in Senders(msgs, Content(msg))
      ensures p in Support(sent, msg.proposed)
    {
      var i :| 0 <= i < |msgs| && Content(msgs[i]) == Content(msg) && msgs[i].sender == p;
      assert AsSet(sent[log[i]].proposed) == AsSet(msg.proposed);
    }
  }

  /** When the counter answers true, as many workers as a quorum have proposed the same views. */
  lemma HitHasSupport(sent: seq<Msg>, log: seq<nat>, k: nat, quorumSize: nat)
    requires InRange(log, |sent|) && k < |sent| && k !in log && Distinct(log)
    requires NoRepeats(sent) && SentProper(sent)
    requires CountMsg(ReplayMsgs(LogMsgs(sent, log)), sent[k], quorumSize).1
    ensures |Support(sent, sent[k].proposed)| >= quorumSize
  {
    LogMsgsAppended(sent, log, k);
    var log' := log + [k];
    LogNoRepeats(sent, log');
    var msgs := LogMsgs(sent, log');
    assert msgs[..|log|] == LogMsgs(sent, log) && msgs[|log|] == sent[k];
    CountMsgAtQuorum(msgs, |log|, quorumSize);
    assert Contents(msgs)[..|log| + 1] == Contents(msgs);
    SendersCounted(msgs, Content(sent[k]));
    SendersSupport(sent, log', sent[k]);
    SubsetCardinality(Senders(msgs, Content(sent[k])), Support(sent, sent[k].proposed));
  }

  /** With a quorum of at most two a message is only ever counted with one of another sender, so
      no hypothesis on repeats is needed. */
  lemma SmallHitHasSupport(sent: seq<Msg>, log: seq<nat>, k: nat, quorumSize: nat)
    requires InRange(log, |sent|) && k < |sent| && quorumSize <= 2 && SentProper(sent)
    requires CountMsg(ReplayMsgs(LogMsgs(sent, log)), sent[k], quorumSize).1
    ensures |Support(sent, sent[k].proposed)| >= quorumSize
  {
    var ts, msg := ReplayMsgs(LogMsgs(sent, log)), sent[k];
    var i := FirstMatch(ts, msg);
    var support := Support(sent, msg.proposed);
    if i < |ts| {
      var first := ts[i].first;
      var j :| 0 <= j < |log| && LogMsgs(sent, log)[j] == first;
      assert sent[log[j]] == first && first in sent && msg in sent;
      MatchMeaning(first, msg);
      SubsetCardinality({first.sender, msg.sender}, support);
    } else {
      SubsetCardinality({msg.sender}, support);
    }
  }

  lemma SupportGrows(sent: seq<Msg>, more: seq<Msg>, c: ViewSeq)
    ensures Support(sent, c) <= Support(sent + more, c)
  {
    forall p | p in Support(sent, c)
      ensures p in Support(sent + more, c)
    {
      var i :| 0 <= i < |sent| && AsSet(sent[i].proposed) == AsSet(c) && sent[i].sender == p;
      assert (sent + more)[i] == sent[i];
    }
  }

  // ----- preservation -----

  ghost predicate ConvergedOk(m: set<Process>, s: State) {
    && (forall p {:trigger LogOk(s, p)} | p in s.workers :: LogOk(s, p))
    && (forall p | p in s.log :: p in s.workers)
    && forall c {:trigger Support(s.sent, c)} | c in s.convs :: |Support(s.sent, c)| >= QuorumSize(|m|)
  }

  /** What makes the counter count senders: no worker repeats itself, or a quorum is at most two. */
  ghost predicate CountsSenders(m: set<Process>, sent: seq<Msg>) {
    QuorumSize(|m|) <= 2 || NoRepeats(sent)
  }

  lemma Prefix(s: seq<Msg>, more: seq<Msg>)
    requires NoRepeats(s + more)
    ensures NoRepeats(s)
  {
    forall i, j | 0 <= i < j < |s| && s[i].sender == s[j].sender
      ensures Content(s[i]) != Content(s[j])
    {
      assert (s + more)[i] == s[i] && (s + more)[j] == s[j];
    }
  }

  lemma ProperSent(m: set<Process>, s: State)
    requires Inv(m, s)
    ensures SentProper(s.sent)
  {
    forall x | x in s.sent
      ensures ProperMsg(x)
    {
      var i :| 0 <= i < |s.sent| && s.sent[i] == x;
      assert SentOk(s, i);
    }
  }

  /** Counting message k of `sent` keeps the log exact, and a new SeqConv has a quorum's support. */
  lemma OneCount(m: set<Process>, w: Worker, sent: seq<Msg>, log: seq<nat>, k: nat)
    requires InRange(log, |sent|) && k < |sent| && k !in log && Distinct(log)
    requires CountsSenders(m, sent) && SentProper(sent) && w.msgs == ReplayMsgs(LogMsgs(sent, log))
    ensures var o := CountViewSeq(w, sent[k], QuorumSize(|m|));
            && Distinct(log + [k]) && InRange(log + [k], |sent|)
            && o.worker.msgs == ReplayMsgs(LogMsgs(sent, log + [k]))
            && forall c | c in o.convs :: |Support(sent, c)| >= QuorumSize(|m|)
  {
    var q := QuorumSize(|m|);
    CountedLog(w, sent, log, k, q);
    if CountMsg(w.msgs, sent[k], q).1 {
      if q <= 2 { SmallHitHasSupport(sent, log, k, q); } else { HitHasSupport(sent, log, k, q); }
    }
  }

  /** The same for two messages in a row, with a new proposal adopted in between. */
  lemma TwoCounts(m: set<Process>, w: Worker, proposed: ViewSeq, sent: seq<Msg>, log: seq<nat>, n: nat, k: nat)
    requires InRange(log, |sent|) && n < |sent| && k < |sent| && n != k && n !in log && k !in log && Distinct(log)
    requires CountsSenders(m, sent) && SentProper(sent) && w.msgs == ReplayMsgs(LogMsgs(sent, log))
    ensures var first := CountViewSeq(w, sent[n], QuorumSize(|m|));
            var second := CountViewSeq(first.worker.(proposed := proposed), sent[k], QuorumSize(|m|));
            && Distinct(log + [n] + [k]) && InRange(log + [n] + [k], |sent|)
            && second.worker.msgs == ReplayMsgs(LogMsgs(sent, log + [n] + [k]))
            && forall c | c in first.convs + second.convs :: |Support(sent, c)| >= QuorumSize(|m|)
  {
    OneCount(m, w, sent, log, n);
    var first := CountViewSeq(w, sent[n], QuorumSize(|m|));
    OneCount(m, first.worker.(proposed := proposed), sent, log + [n], k);
  }

  /** The worker part of a step: its log stays exact and its SeqConvs are supported. */
  ghost predicate PublishedOk(m: set<Process>, s': State, p: Process, convs: seq<ViewSeq>) {
    && p in s'.workers && LogOk(s', p)
    && forall c | c in convs :: |Support(s'.sent, c)| >= QuorumSize(|m|)
  }

  lemma BeginPublished(m: set<Process>, s: State, e: Event)
    requires Inv(m, s) && ConvergedOk(m, s) && e.Begin? && Enabled(m, s, e) && ProperBegin(e)
    requires CountsSenders(m, Next(m, s, e).sent) && SentProper(Next(m, s, e).sent)
    ensures PublishedOk(m, Next(m, s, e), e.p, Output(m, s, e).convs)
  {
    var s' := Next(m, s, e);
    assert Log(s, e.p) == [];
    if e.initial != [] {
      var own := Msg(e.p, e.initial, []);
      assert s'.sent == s.sent + [own];
      OneCount(m, IDLE, s'.sent, [], |s.sent|);
      assert [] + [|s.sent|] + [] == [|s.sent|];
    }
  }

  /** A received proposal that brings nothing new is only counted. */
  lemma KnownPublished(m: set<Process>, s: State, e: Event)
    requires e.Deliver? && Enabled(m, s, e) && LogOk(s, e.p)
    requires !HasChanges(s.workers[e.p].proposed, s.sent[e.k].proposed)
    requires CountsSenders(m, Next(m, s, e).sent) && SentProper(Next(m, s, e).sent)
    ensures PublishedOk(m, Next(m, s, e), e.p, Output(m, s, e).convs)
  {
    var log := s.log[e.p];
    assert Next(m, s, e).sent == s.sent;
    OneCount(m, s.workers[e.p], s.sent, log, e.k);
    assert log + [] + [e.k] == log + [e.k];
  }

  /** Otherwise the own message is counted before it. */
  lemma NewsPublished(m: set<Process>, s: State, e: Event)
    requires e.Deliver? && Enabled(m, s, e) && LogOk(s, e.p)
    requires HasChanges(s.workers[e.p].proposed, s.sent[e.k].proposed)
    requires CountsSenders(m, Next(m, s, e).sent) && SentProper(Next(m, s, e).sent)
    ensures PublishedOk(m, Next(m, s, e), e.p, Output(m, s, e).convs)
  {
    var w, n, log := s.workers[e.p], |s.sent|, s.log[e.p];
    var (proposed, converged) := Merge(w, s.sent[e.k]);
    var own, w0 := Msg(e.p, proposed, converged), w.(converged := converged);
    var all := Next(m, s, e).sent;
    assert all == s.sent + [own];
    LogMsgsExtended(s.sent, [own], log);
    TwoCounts(m, w0, proposed, all, log, n, e.k);
  }

  lemma DeliverPublished(m: set<Process>, s: State, e: Event)
    requires e.Deliver? && Enabled(m, s, e) && LogOk(s, e.p)
    requires CountsSenders(m, Next(m, s, e).sent) && SentProper(Next(m, s, e).sent)
    ensures PublishedOk(m, Next(m, s, e), e.p, Output(m, s, e).convs)
  {
    if HasChanges(s.workers[e.p].proposed, s.sent[e.k].proposed) {
      NewsPublished(m, s, e);
    } else {
      KnownPublished(m, s, e);
    }
  }

  lemma LogStays(m: set<Process>, s: State, e: Event, p: Process)
    requires Enabled(m, s, e) && p in s.workers && LogOk(s, p) && (e.DeliverConv? || e.p != p)
    ensures LogOk(Next(m, s, e), p)
  {
    var s' := Next(m, s, e);
    assert s'.sent == s.sent + s'.sent[|s.sent|..];
    LogMsgsExtended(s.sent, s'.sent[|s.sent|..], s.log[p]);
  }

  lemma StepConverged(m: set<Process>, s: State, e: Event)
    requires Inv(m, s) && ConvergedOk(m, s) && Enabled(m, s, e) && ProperBegin(e)
    requires CountsSenders(m, Next(m, s, e).sent)
    ensures ConvergedOk(m, Next(m, s, e))
  {
    var s' := Next(m, s, e);
    StepInv(m, s, e);
    ProperSent(m, s');
    if e.Begin? { BeginPublished(m, s, e); } else if e.Deliver? { assert LogOk(s, e.p); DeliverPublished(m, s, e); }
    forall p | p in s'.workers
      ensures LogOk(s', p)
    {
      if e.DeliverConv? || e.p != p { assert LogOk(s, p); LogStays(m, s, e, p); }
    }
    forall c | c in s'.convs
      ensures |Support(s'.sent, c)| >= QuorumSize(|m|)
    {
      if c in s.convs {
        assert s'.sent == s.sent + s'.sent[|s.sent|..];
        SupportGrows(s.sent, s'.sent[|s.sent|..], c);
        SubsetCardinality(Support(s.sent, c), Support(s'.sent, c));
      }
    }
  }

  lemma {:induction false} RunConverged(m: set<Process>, tr: seq<State>, es: seq<Event>, i: nat)
    requires Run(m, tr, es) && ProperStart(es) && i < |tr| && CountsSenders(m, tr[i].sent)
    ensures ConvergedOk(m, tr[i])
  {
    if i > 0 {
      var s, s' := tr[i - 1], tr[i];
      assert s'.sent == s.sent + s'.sent[|s.sent|..];
      if QuorumSize(|m|) > 2 { Prefix(s.sent, s'.sent[|s.sent|..]); }
      RunInv(m, tr, es, i - 1);
      RunConverged(m, tr, es, i - 1);
      StepConverged(m, s, es[i - 1]);
    }
  }

  // ----- the theorem -----

  lemma SupportIsQuorum(m: set<Process>, s: State, c: ViewSeq)
    requires Inv(m, s) && |Support(s.sent, c)| >= QuorumSize(|m|)
    ensures IsQuorum(Support(s.sent, c), m)
  {
    forall p | p in Support(s.sent, c)
      ensures p in m
    {
      var i :| 0 <= i < |s.sent| && AsSet(s.sent[i].proposed) == AsSet(c) && s.sent[i].sender == p;
      assert SentOk(s, i);
    }
  }

  /** The shared sender's proposals for the two sequences. */
  lemma SharedSender(m: set<Process>, s: State, c: ViewSeq, c': ViewSeq) returns (i: nat, j: nat)
    requires Inv(m, s)
    requires |Support(s.sent, c)| >= QuorumSize(|m|) && |Support(s.sent, c')| >= QuorumSize(|m|)
    ensures i < |s.sent| && j < |s.sent| && s.sent[i].sender == s.sent[j].sender
    ensures AsSet(s.sent[i].proposed) == AsSet(c) && AsSet(s.sent[j].proposed) == AsSet(c')
  {
    SupportIsQuorum(m, s, c);
    SupportIsQuorum(m, s, c');
    var p := QuorumsIntersect(m, Support(s.sent, c), Support(s.sent, c'));
    i :| 0 <= i < |s.sent| && AsSet(s.sent[i].proposed) == AsSet(c) && s.sent[i].sender == p;
    j :| 0 <= j < |s.sent| && AsSet(s.sent[j].proposed) == AsSet(c') && s.sent[j].sender == p;
  }

  lemma SameViewsSameTop(a: ViewSeq, b: ViewSeq)
    requires ChainSeq(a) && ChainSeq(b) && AsSet(a) == AsSet(b)
    ensures MostUpdated(a) == MostUpdated(b)
  {
    assert forall v :: v in a <==> v in AsSet(a);
    assert forall v :: v in b <==> v in AsSet(b);
    MostUpdatedMonotone(a, b);
    MostUpdatedMonotone(b, a);
  }

  /** The most updated views of any two converged sequences are comparable. */
  lemma ConvergedAreComparable(m: set<Process>, tr: seq<State>, es: seq<Event>, i: nat, c: ViewSeq, c': ViewSeq)
    requires Run(m, tr, es) && ProperStart(es) && i < |tr| && CountsSenders(m, tr[i].sent)
    requires c in tr[i].convs && c' in tr[i].convs
    ensures Comparable(MostUpdated(c), MostUpdated(c'))
  {
    RunInv(m, tr, es, i);
    RunConverged(m, tr, es, i);
    var s := tr[i];
    var a, b := SharedSender(m, s, c, c');
    assert SentOk(s, a) && SentOk(s, b) && Proper(c) && Proper(c');
    SameViewsSameTop(s.sent[a].proposed, c);
    SameViewsSameTop(s.sent[b].proposed, c');
    assert GrowsOk(s, a, b) && GrowsOk(s, b, a);
  }

  /** And so are those of any two generated sequences. */
  lemma GeneratedAreComparable(m: set<Process>, tr: seq<State>, es: seq<Event>, i: nat, c: ViewSeq, c': ViewSeq)
    requires Run(m, tr, es) && ProperStart(es) && i < |tr| && CountsSenders(m, tr[i].sent)
    requires c in tr[i].generated && c' in tr[i].generated
    ensures Comparable(MostUpdated(c), MostUpdated(c'))
  {
    RunInv(m, tr, es, i);
    ConvergedAreComparable(m, tr, es, i, c, c');
  }
}
