/**
 The goroutine of one view generator as the source writes it: an object with its last proposed
 and last converged sequence and its two counters, updated in place by each received message.
 Each method does to that state exactly what the corresponding step of ViewGenerator does.
 */
module ViewGeneratorWorker {
  import opened Views
  import opened ViewSeqs
  import opened QuorumCounters
  import opened ViewGenerator

  /** The merge loop: does `received` bring a view that `last` lacks, and one that conflicts? */
  method Inspect(last: ViewSeq, received: ViewSeq) returns (hasChanges: bool, hasConflict: bool)
    ensures hasChanges <==> HasChanges(last, received)
    ensures hasConflict <==> HasConflict(last, received)
  {
    hasChanges, hasConflict := false, false;
    for i := 0 to |received|
      invariant hasChanges <==> exists k :: 0 <= k < i && received[k] !in last
      invariant !hasConflict
      invariant forall k, v' :: 0 <= k < i && received[k] !in last && v' in last ==> !Conflict(received[k], v')
    {
      var v := received[i];
      var known := HasView(last, v);
      if !known {
        hasChanges := true;
        var clash := ConflictsWithAny(v, last);
        if clash {
          hasConflict := true;
          assert v in received;
          return;
        }
      }
    }
    assert hasChanges ==> HasChanges(last, received);
  }

  method ConflictsWithAny(v: View, last: ViewSeq) returns (clash: bool)
    ensures clash <==> exists v' :: v' in last && Conflict(v, v')
  {
    for j := 0 to |last|
      invariant forall k | 0 <= k < j :: !Conflict(v, last[k])
    {
      var less := LessUpdatedThan(v, last[j]);
      var more := LessUpdatedThan(last[j], v);
      if less && more {
        assert last[j] in last;
        return true;
      }
    }
    return false;
  }

  class GeneratorWorker {
    const self: Process
    const associated: View
    const quorumSize: nat
    var proposed: ViewSeq
    var converged: ViewSeq
    const msgs: MsgCounter
    const convs: QuorumCounter<ViewSeq>
    var sends: seq<Msg>              // proposals broadcast so far
    var sentConvs: seq<ViewSeq>      // SeqConvs broadcast so far
    var generated: seq<ViewSeq>      // sequences handed to installation so far

    ghost predicate Valid()
      reads this, msgs, convs
    {
      msgs.Valid() && convs.Valid()
    }

    ghost function Abstract(): Worker
      reads this, msgs, convs
      requires Valid()
    {
      Worker(proposed, converged, msgs.Tallies(), convs.Tallies())
    }

    constructor (self: Process, associated: View, quorumSize: nat)
      ensures Valid() && fresh(msgs) && fresh(convs) && Abstract() == IDLE
      ensures this.self == self && this.associated == associated && this.quorumSize == quorumSize
      ensures sends == [] && sentConvs == [] && generated == []
    {
      this.self, this.associated, this.quorumSize := self, associated, quorumSize;
      proposed, converged := [], [];
      sends, sentConvs, generated := [], [], [];
      msgs := new MsgCounter();
      convs := new QuorumCounter<ViewSeq>();
    }

    method CountViewSequence(msg: Msg)
      requires Valid()
      modifies `converged, `sentConvs, msgs
      ensures Valid()
      ensures var o := CountViewSeq(old(Abstract()), msg, quorumSize);
              Abstract() == o.worker && sentConvs == old(sentConvs) + o.convs
    {
      var hit := msgs.CountMessage(associated, msg, quorumSize);
      if hit {
        converged := msg.proposed;
        sentConvs := sentConvs + [msg.proposed];
      }
    }

    /** Broadcast a proposal and count it, then adopt it. */
    method Propose(newProposed: ViewSeq)
      requires Valid()
      modifies `proposed, `converged, `sends, `sentConvs, msgs
      ensures Valid()
      ensures var own := Msg(self, newProposed, old(converged));
              var o := CountViewSeq(old(Abstract()), own, quorumSize);
              && Abstract() == o.worker.(proposed := newProposed)
              && sends == old(sends) + [own] && sentConvs == old(sentConvs) + o.convs
    {
      var own := Msg(self, newProposed, converged);
      sends := sends + [own];
      CountViewSequence(own);
      proposed := newProposed;
    }

    /** The start of the goroutine: propose a non-empty initial sequence. */
    method Begin(initial: ViewSeq)
      requires Valid() && Abstract() == IDLE
      modifies this, msgs
      ensures Valid() && generated == old(generated)
      ensures var o := OnBegin(self, initial, quorumSize);
              Abstract() == o.worker && sends == old(sends) + o.sends && sentConvs == old(sentConvs) + o.convs
    {
      if |initial| != 0 {
        Propose(initial);
      }
    }

    method ResolveConflict(msg: Msg) returns (newProposed: ViewSeq)
      requires Valid()
      modifies `converged
      ensures converged == ConvergedAfterConflict(old(converged), msg.converged)
      ensures newProposed == Append(converged, [MostUpdated(proposed) + MostUpdated(msg.proposed)])
    {
      var receivedTop := GetMostUpdatedView(msg.converged);
      var ownTop := GetMostUpdatedView(converged);
      var less := LessUpdatedThan(ownTop, receivedTop);
      if less {
        converged := msg.converged;
      }
      var oldMost := GetMostUpdatedView(proposed);
      var receivedMost := GetMostUpdatedView(msg.proposed);
      var oldUpdates := GetUpdates(oldMost);
      var receivedUpdates := GetUpdates(receivedMost);
      var aux := new ViewBuilder(oldUpdates + receivedUpdates);
      assert aux.entries == oldMost + receivedMost;
      newProposed := AppendViews(converged, [aux.entries]);
    }

    method MergeViews(msg: Msg, hasConflict: bool) returns (newProposed: ViewSeq)
      requires Valid() && (hasConflict <==> HasConflict(proposed, msg.proposed))
      modifies `converged
      ensures (newProposed, converged) == Merge(old(Abstract()), msg)
    {
      if hasConflict {
        newProposed := ResolveConflict(msg);
      } else {
        newProposed := AppendViews(proposed, msg.proposed);
      }
    }

    /** A received ViewSeqMsg. */
    method Receive(msg: Msg)
      requires Valid()
      modifies this, msgs
      ensures Valid() && generated == old(generated)
      ensures var o := OnMsg(self, old(Abstract()), msg, quorumSize);
              Abstract() == o.worker && sends == old(sends) + o.sends && sentConvs == old(sentConvs) + o.convs
    {
      ghost var w := Abstract();
      var hasChanges, hasConflict := Inspect(proposed, msg.proposed);
      if hasChanges {
        var newProposed := MergeViews(msg, hasConflict);
        assert Abstract() == w.(converged := converged);
        Propose(newProposed);
      }
      CountViewSequence(msg);
    }

    /** A received SeqConv. */
    method ReceiveConv(seq0: ViewSeq)
      requires Valid()
      modifies `generated, convs
      ensures Valid()
      ensures var (ts, hit) := Count(old(convs.Tallies()), seq0, quorumSize);
              && Abstract() == old(Abstract()).(convs := ts)
              && generated == if hit then old(generated) + [seq0] else old(generated)
    {
      var hit := convs.CountMessage(seq0, quorumSize);
      if hit {
        generated := generated + [seq0];
      }
    }
  }
}
