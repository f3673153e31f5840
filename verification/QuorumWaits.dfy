/**
 The loops of pkg/consensus and pkg/comm that wait for a quorum of answers and stop as soon as
 too many answers failed. Whatever the order of the answers, they stop within one answer per
 member, and succeed exactly if a quorum of the members did. The loops of pkg/client, which wait
 for every process before they give up, are in Client, with the same verdict.
 */
module QuorumWaits {
  import opened Views
  import opened Consensus

  datatype Verdict = Success | Failure | Waiting

  /** How many of the answers are successes. */
  function Successes(answers: seq<bool>): (k: nat)
    ensures k <= |answers|
  {
    if answers == [] then 0
    else Successes(answers[..|answers| - 1]) + (if answers[|answers| - 1] then 1 else 0)
  }

  lemma {:induction false} SuccessesGrow(answers: seq<bool>, i: nat)
    requires i <= |answers|
    ensures Successes(answers[..i]) <= Successes(answers) <= Successes(answers[..i]) + |answers| - i
    decreases |answers| - i
  {
    if i == |answers| {
      assert answers[..i] == answers;
    } else {
      assert answers[..i + 1][..i] == answers[..i];
      SuccessesGrow(answers, i + 1);
    }
  }

  lemma {:induction false} SuccessesStep(answers: seq<bool>, i: nat)
    requires i < |answers|
    ensures Successes(answers[..i + 1]) == Successes(answers[..i]) + if answers[i] then 1 else 0
    ensures Successes(answers[..i + 1]) <= Successes(answers) <= Successes(answers[..i + 1]) + |answers| - i - 1
  {
    assert answers[..i + 1][..i] == answers[..i];
    SuccessesGrow(answers, i + 1);
  }

  /** What a wait loop over the answers of n members must find: success exactly when a quorum
      of the n answers are successes, and no waiting once all have come. */
  ghost predicate Decides(n: nat, answers: seq<bool>, v: Verdict) {
    && (v == Success ==> Successes(answers) >= QuorumSize(n))
    && (v == Failure ==> |answers| - Successes(answers) > ToleratedFaults(n))
    && (v == Waiting ==> Successes(answers) < QuorumSize(n))
    && (v == Waiting && n > 0 ==> |answers| - Successes(answers) <= ToleratedFaults(n))
    && (|answers| == n > 0 ==> v != Waiting && (v == Success <==> Successes(answers) >= QuorumSize(n)))
  }

  /** BroadcastRPCRequest and accept: stop at the quorum-th success or the first intolerable failure. */
  method WaitEarlyExit(n: nat, answers: seq<bool>) returns (v: Verdict, used: nat)
    ensures used <= |answers| && Decides(n, answers[..used], v) && Decides(n, answers, v)
    ensures 0 < n <= |answers| ==> v != Waiting && used <= n
    ensures v == Success ==> Successes(answers[..used]) == QuorumSize(n)
    ensures v == Failure && n > 0 ==> used - Successes(answers[..used]) == ToleratedFaults(n) + 1
  {
    QuorumSizeIsMajority(n);
    var failed, succeeded := 0, 0;
    for i := 0 to |answers|
      invariant succeeded == Successes(answers[..i]) && succeeded + failed == i
      invariant succeeded < QuorumSize(n) && (n > 0 ==> failed <= ToleratedFaults(n))
    {
      SuccessesStep(answers, i);
      if !answers[i] {
        failed := failed + 1;
        if failed > ToleratedFaults(n) {
          return Failure, i + 1;
        }
      } else {
        succeeded := succeeded + 1;
        if succeeded == QuorumSize(n) {
          return Success, i + 1;
        }
      }
    }
    assert answers[..|answers|] == answers;
    return Waiting, |answers|;
  }

  // ----- the first phase of a proposer -----

  /** The proposals of the successful replies, in order of arrival. */
  function Good(replies: seq<Option<Proposal>>): (ps: seq<Proposal>)
    ensures |ps| <= |replies|
  {
    if replies == [] then []
    else
      var rest, last := Good(replies[..|replies| - 1]), replies[|replies| - 1];
      if last.Some? then rest + [last.value] else rest
  }

  lemma GoodStep(replies: seq<Option<Proposal>>, i: nat)
    requires i < |replies|
    ensures Good(replies[..i + 1])
            == if replies[i].Some? then Good(replies[..i]) + [replies[i].value] else Good(replies[..i])
  {
    assert replies[..i + 1][..i] == replies[..i];
  }

  lemma HighestStep(replies: seq<Option<Proposal>>, i: nat)
    requires i < |replies|
    ensures var top, top' := Highest(Good(replies[..i]), NOTHING), Highest(Good(replies[..i + 1]), NOTHING);
            top' == if replies[i].Some? && top.n < replies[i].value.n then replies[i].value else top
  {
    GoodStep(replies, i);
    if replies[i].Some? { HighestAppend(Good(replies[..i]), replies[i].value, NOTHING); }
  }

  /** prepare: the value of the highest-numbered proposal among the first quorum of replies. */
  method WaitPrepare(n: nat, replies: seq<Option<Proposal>>) returns (v: Verdict, value: Option<ViewSeq>, used: nat)
    requires n > 0
    ensures used <= |replies|
    ensures v == Success ==> |Good(replies[..used])| == QuorumSize(n)
                             && value == Highest(Good(replies[..used]), NOTHING).value
    ensures v == Failure ==> used - |Good(replies[..used])| > ToleratedFaults(n)
    ensures v == Waiting ==> |Good(replies)| < QuorumSize(n) && |replies| - |Good(replies)| <= ToleratedFaults(n)
    ensures n <= |replies| ==> v != Waiting && used <= n
  {
    QuorumSizeIsMajority(n);
    var failed, succeeded := 0, 0;
    var top := NOTHING;
    for i := 0 to |replies|
      invariant succeeded == |Good(replies[..i])| && succeeded + failed == i
      invariant succeeded < QuorumSize(n) && failed <= ToleratedFaults(n)
      invariant top == Highest(Good(replies[..i]), NOTHING)
    {
      GoodStep(replies, i);
      HighestStep(replies, i);
      assert |replies[..i + 1]| == i + 1;
      if replies[i].None? {
        failed := failed + 1;
        if failed > ToleratedFaults(n) {
          return Failure, None, i + 1;
        }
      } else {
        var p := replies[i].value;
        succeeded := succeeded + 1;
        if top.n < p.n {
          top := p;
        }
        if succeeded == QuorumSize(n) {
          return Success, top.value, i + 1;
        }
      }
    }
    assert replies[..|replies|] == replies;
    return Waiting, None, |replies|;
  }

  lemma {:induction false} HighestAppend(ps: seq<Proposal>, p: Proposal, best: Proposal)
    ensures Highest(ps + [p], best) == (var top := Highest(ps, best); if top.n < p.n then p else top)
  {
    if ps == [] {
      assert ps + [p] == [p] && [p][1..] == [];
    } else {
      assert (ps + [p])[1..] == ps[1..] + [p];
      HighestAppend(ps[1..], p, if ps[0].n > best.n then ps[0] else best);
    }
  }
}
